/** The contact form of src/components/pages/ContactPage.tsx: `handleSubmit` passes the
    three fields on only when none is empty, and then clears the form. */
module ContactPage {
  import opened Types

  /** `!name || !email || !message` does not hold: no field is empty. */
  predicate IsComplete(name: string, email: string, message: string) {
    name != "" && email != "" && message != ""
  }

  /** The form's inputs, the submissions `onSubmit` has received, and the alerts shown. */
  class Form {
    var name: string
    var email: string
    var message: string
    var submitted: seq<ContactForm>
    var alerts: nat

    /** Every submission handed to `onSubmit` had all three fields filled in. */
    predicate Valid()
      reads this
    {
      forall i | 0 <= i < |submitted| :: IsComplete(submitted[i].name, submitted[i].email, submitted[i].message)
    }

    /** An empty form. */
    constructor ()
      ensures Valid()
      ensures name == "" && email == "" && message == "" && submitted == [] && alerts == 0
    {
      name, email, message := "", "", "";
      submitted, alerts := [], 0;
    }

    /** The visitor typing into the three inputs. */
    method Type(n: string, e: string, m: string)
      requires Valid()
      modifies this
      ensures Valid()
      ensures name == n && email == e && message == m
      ensures submitted == old(submitted) && alerts == old(alerts)
    {
      name, email, message := n, e, m;
    }

    /** `handleSubmit`: with an empty field it alerts and leaves the form as it is; otherwise
        it submits exactly the three values read from the form and then resets the form. */
    method Submit() returns (sent: bool)
      requires Valid()
      modifies this
      ensures Valid()
      ensures sent <==> IsComplete(old(name), old(email), old(message))
      ensures sent ==> submitted == old(submitted) + [ContactForm(old(name), old(email), old(message))]
                       && name == "" && email == "" && message == "" && alerts == old(alerts)
      ensures !sent ==> submitted == old(submitted) && alerts == old(alerts) + 1
                        && name == old(name) && email == old(email) && message == old(message)
    {
      if name == "" || email == "" || message == "" {
        alerts := alerts + 1;
        return false;
      }
      submitted := submitted + [ContactForm(name, email, message)];
      name, email, message := "", "", "";
      sent := true;
    }
  }
}
