/** The avatar initials of the settings page (Frontend/src/pages/Settings.tsx): the
    first character of each space-separated word of the user's name, at most two of
    them, upper-cased; `U` for an empty name. */
module Settings {
  import opened Js

  /** `name.split(' ')` */
  function SplitSpaces(s: string): (r: seq<string>)
    ensures |r| >= 1
  {
    if s == [] then [""]
    else
      var rest := SplitSpaces(s[1..]);
      if s[0] == ' ' then [""] + rest
      else [[s[0]] + rest[0]] + rest[1..]
  }

  /** `.map(n => n[0]).join('')`: an empty segment's `n[0]` is `undefined`, which
      `join` writes as nothing. */
  function Firsts(words: seq<string>): string {
    if words == [] then []
    else (if words[0] == [] then [] else [words[0][0]]) + Firsts(words[1..])
  }

  /** `getInitials(name)` */
  function Initials(name: string): (r: string)
    ensures name == "" ==> r == "U"
    ensures |r| <= 2
  {
    if name == "" then "U"
    else
      var firsts := Firsts(SplitSpaces(name));
      Upper(if |firsts| <= 2 then firsts else firsts[..2])
  }

  /** The reference: the characters that start a word, that is, a character other than
      a space at the start of the text or right after a space. */
  function WordStarts(s: string, afterSpace: bool): string {
    if s == [] then []
    else (if afterSpace && s[0] != ' ' then [s[0]] else []) + WordStarts(s[1..], s[0] == ' ')
  }

  /** Splitting on spaces and taking first characters finds exactly the word starts, in
      order; the segments after the first are those that follow a space. */
  lemma {:induction false} FirstsAreWordStarts(s: string)
    ensures Firsts(SplitSpaces(s)) == WordStarts(s, true)
    ensures Firsts(SplitSpaces(s)[1..]) == WordStarts(s, false)
  {
    if s != [] {
      FirstsAreWordStarts(s[1..]);
      var rest := SplitSpaces(s[1..]);
      if s[0] == ' ' {
        assert SplitSpaces(s) == [""] + rest;
        assert SplitSpaces(s)[1..] == rest;
      } else {
        var r := SplitSpaces(s);
        assert r == [[s[0]] + rest[0]] + rest[1..];
        assert r[1..] == rest[1..];
        assert Firsts(r) == [s[0]] + Firsts(rest[1..]);
      }
    }
  }

  /** A non-empty name gives the first two word starts upper-cased, or the only one;
      runs of spaces add nothing. */
  lemma InitialsAreWordStarts(name: string)
    requires name != ""
    ensures var starts := WordStarts(name, true);
            Initials(name) == Upper(if |starts| <= 2 then starts else starts[..2])
  {
    FirstsAreWordStarts(name);
  }

  /** "jo  an" gives "JA": the double space adds nothing. */
  lemma DoubleSpaceSkipped()
    ensures Initials("jo  an") == "JA"
  {
    InitialsAreWordStarts("jo  an");
    assert WordStarts("an", false) == "";
    assert WordStarts(" an", false) == "a";
    assert WordStarts("  an", false) == "a";
    assert WordStarts("o  an", false) == "a";
    assert WordStarts("jo  an", true) == "ja";
  }

  /** A name made of spaces is not empty, so it gets no `U`, yet it has no initials. */
  lemma BlankNameHasNoInitials()
    ensures Initials("  ") == ""
  {
    InitialsAreWordStarts("  ");
    assert WordStarts(" ", true) == "";
  }
}
