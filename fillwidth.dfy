/** The fill-width heading: its line height is tight unless the text has a lower-case letter
    that reaches below the baseline. */
module FillWidth {
  import opened Text

  /** `/[gjpqy]/`: the lower-case letters with descenders. */
  const Descenders: set<char> := {'g', 'j', 'p', 'q', 'y'}

  /** `hasDescenders(text)`: the pattern occurs somewhere in the text. */
  function HasDescenders(text: string): (b: bool)
    ensures b <==> exists i :: 0 <= i < |text| && text[i] in Descenders
  {
    if text == [] then false
    else if text[0] in Descenders then true
    else
      var rest := HasDescenders(text[1..]);
      assert forall i :: 1 <= i < |text| ==> text[i] == text[1..][i - 1];
      rest
  }

  /** The empty text has none. */
  lemma EmptyHasNone()
    ensures !HasDescenders("")
  {
  }

  /** Upper-case letters do not count: a text in capitals has no descenders. */
  lemma CapitalsHaveNone(text: string)
    ensures !HasDescenders(ToUpper(text))
  {
    var u := ToUpper(text);
    forall i | 0 <= i < |u|
      ensures u[i] !in Descenders
    {
      assert u[i] == ToUpperChar(text[i]);
    }
  }

  /** A text has descenders when one of its parts has. */
  lemma {:induction false} JoinedDescenders(a: string, b: string)
    ensures HasDescenders(a + b) == (HasDescenders(a) || HasDescenders(b))
  {
    var s := a + b;
    if HasDescenders(a) {
      var i :| 0 <= i < |a| && a[i] in Descenders;
      assert s[i] == a[i];
    }
    if HasDescenders(b) {
      var i :| 0 <= i < |b| && b[i] in Descenders;
      assert s[|a| + i] == b[i];
    }
    if HasDescenders(s) {
      var i :| 0 <= i < |s| && s[i] in Descenders;
      if i < |a| {
        assert s[i] == a[i];
      } else {
        assert s[i] == b[i - |a|];
      }
    }
  }

  /** The line height: 1.2 with descenders, 0.8 without. */
  function LineHeight(text: string): (h: real)
    ensures h == 1.2 || h == 0.8
    ensures h == 1.2 <==> exists i :: 0 <= i < |text| && text[i] in Descenders
  {
    if HasDescenders(text) then 1.2 else 0.8
  }

  /** A heading in capitals always gets the tight line height. */
  lemma CapitalsAreTight(text: string)
    ensures LineHeight(ToUpper(text)) == 0.8
  {
    CapitalsHaveNone(text);
  }
}
