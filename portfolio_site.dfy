/** The single-page shell of src/components/PortfolioSite.tsx: the current page, kept in
    the URL hash, the open detail modal and the toast shown after a contact submission. */
module PortfolioSite {
  import opened Json
  import opened Types

  const Pages: seq<string> := ["home", "about", "portfolio", "research", "academics", "contact"]

  /** The index of the first occurrence of `c` in `s`. */
  function FirstIndex(s: string, c: char): (k: nat)
    requires c in s
    ensures k < |s| && s[k] == c && c !in s[..k]
  {
    if s[0] == c then 0
    else
      assert c in s[1..];
      var k := FirstIndex(s[1..], c);
      assert s[..k + 1] == [s[0]] + s[1..][..k];
      k + 1
  }

  /** `s.replace(c, '')` with a one-character string pattern: only the first occurrence goes. */
  function RemoveFirst(s: string, c: char): (r: string)
    ensures c !in s ==> r == s
    ensures c in s ==> r == s[..FirstIndex(s, c)] + s[FirstIndex(s, c) + 1..]
    ensures c in s ==> |r| == |s| - 1 && multiset(r) == multiset(s) - multiset{c}
    ensures |s| > 0 && s[0] == c ==> r == s[1..]
  {
    if c in s then
      var k := FirstIndex(s, c);
      assert s == s[..k] + [s[k]] + s[k + 1..];
      s[..k] + s[k + 1..]
    else s
  }

  /** Only the first '#' goes: a later one stays. */
  lemma RemoveFirstKeepsLater()
    ensures RemoveFirst("a#b#", '#') == "ab#"
  {
    var s := "a#b#";
    assert s[1] == '#' && s[0] != '#';
    assert FirstIndex(s, '#') == 1;
    assert s[..1] + s[2..] == "ab#";
  }

  /** The initial page: the hash without its `#` when that names a page, else 'home'; without
      a window (None) it is 'home'. */
  function InitialPage(hash: Option<string>): (p: string)
    ensures p in Pages
    ensures hash.None? ==> p == "home"
    ensures hash.Some? && RemoveFirst(hash.value, '#') in Pages ==> p == RemoveFirst(hash.value, '#')
    ensures hash.Some? && RemoveFirst(hash.value, '#') !in Pages ==> p == "home"
  {
    if hash.Some? && RemoveFirst(hash.value, '#') in Pages then RemoveFirst(hash.value, '#') else "home"
  }

  /** The hash the site writes for a page brings the same page back on reload. */
  lemma HashRoundTrip(p: string)
    requires p in Pages
    ensures InitialPage(Some("#" + p)) == p
  {
    assert ("#" + p)[1..] == p;
  }

  const ThanksPrefix: string := "Thanks, "
  const ThanksSuffix: string := ". I'll get back to you shortly."

  /** The toast text after a contact submission. */
  function ThanksMessage(name: string): (m: string)
    ensures |m| == |ThanksPrefix| + |name| + |ThanksSuffix|
    ensures m[..|ThanksPrefix|] == ThanksPrefix && m[|m| - |ThanksSuffix|..] == ThanksSuffix
    ensures m[|ThanksPrefix|..|m| - |ThanksSuffix|] == name
  {
    ThanksPrefix + name + ThanksSuffix
  }

  /** The toast names the visitor: different names give different messages. */
  lemma ThanksMessageInjective(a: string, b: string)
    requires ThanksMessage(a) == ThanksMessage(b)
    ensures a == b
  {
    var m := ThanksMessage(a);
    assert a == m[|ThanksPrefix|..|m| - |ThanksSuffix|];
  }

  /** The toast's state. */
  datatype Toast = Toast(show: bool, msg: string)

  /** The shell's state on the client; `hash` is `window.location.hash`. */
  class Site {
    var page: string
    var modal: Option<Record>
    var toast: Toast
    var hash: string

    /** Setting `window.location.hash` to a page name reads back with a leading `#`. */
    predicate HashShowsPage()
      reads this
    {
      hash == "#" + page
    }

    /** Mounting with the current hash: the page is chosen from it, then written back into it. */
    constructor (initialHash: string)
      ensures page == InitialPage(Some(initialHash)) && modal == None && toast == Toast(false, "")
      ensures HashShowsPage() && page in Pages
    {
      page := InitialPage(Some(initialHash));
      modal := None;
      toast := Toast(false, "");
      hash := "#" + page;
    }

    /** `setPage`, followed by the effect that writes the page into the hash; a reload then
        reopens the same page whenever it is one of the site's pages. */
    method SetPage(p: string)
      modifies this
      ensures page == p && HashShowsPage()
      ensures p in Pages ==> InitialPage(Some(hash)) == page
      ensures modal == old(modal) && toast == old(toast)
    {
      var h := "#" + p;
      if p in Pages {
        HashRoundTrip(p);
      }
      page, hash := p, h;
    }

    /** A list page opening an item in the modal. */
    method OpenModal(item: Record)
      modifies this
      ensures modal == Some(item)
      ensures page == old(page) && toast == old(toast) && hash == old(hash)
    {
      modal := Some(item);
    }

    /** The modal's `onClose`: back to `null`. */
    method CloseModal()
      modifies this
      ensures modal == None
      ensures page == old(page) && toast == old(toast) && hash == old(hash)
    {
      modal := None;
    }

    /** `onContactSubmit`: shows the thank-you toast naming the visitor. */
    method ContactSubmitted(form: ContactForm)
      modifies this
      ensures toast == Toast(true, ThanksMessage(form.name))
      ensures page == old(page) && modal == old(modal) && hash == old(hash)
    {
      toast := Toast(true, ThanksMessage(form.name));
    }

    /** The toast's `onClose`: `{ show: false, msg: '' }`. */
    method CloseToast()
      modifies this
      ensures toast == Toast(false, "")
      ensures page == old(page) && modal == old(modal) && hash == old(hash)
    {
      toast := Toast(false, "");
    }
  }
}
