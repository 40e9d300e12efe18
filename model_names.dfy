/** `formatModelName`: `name.split('_').map(w => w.charAt(0).toUpperCase() + w.slice(1)).join(' ')`.

    The Dashboard and the ModelComparison components carry identical copies; this module is
    the one definition both use. Upper-casing is ASCII only. */
module ModelNames {

  function Upper(c: char): (u: char)
    ensures 'a' <= c <= 'z' ==> 'A' <= u <= 'Z'
    ensures !('a' <= c <= 'z') ==> u == c
  {
    if 'a' <= c <= 'z' then (c as int - 32) as char else c
  }

  /** `s.split('_')`: always at least one piece; "" splits into [""]. */
  function SplitUnderscore(s: string): (pieces: seq<string>)
    ensures |pieces| >= 1
  {
    if s == [] then [[]]
    else
      var rest := SplitUnderscore(s[1..]);
      if s[0] == '_' then [[]] + rest
      else [[s[0]] + rest[0]] + rest[1..]
  }

  /** `w.charAt(0).toUpperCase() + w.slice(1)`. */
  function Capitalise(w: string): string {
    if w == [] then [] else [Upper(w[0])] + w[1..]
  }

  function CapitaliseAll(ws: seq<string>): (r: seq<string>)
    ensures |r| == |ws|
    ensures forall i :: 0 <= i < |ws| ==> r[i] == Capitalise(ws[i])
  {
    if ws == [] then [] else [Capitalise(ws[0])] + CapitaliseAll(ws[1..])
  }

  /** `ws.join(' ')`. */
  function JoinSpace(ws: seq<string>): string {
    if ws == [] then []
    else if |ws| == 1 then ws[0]
    else ws[0] + " " + JoinSpace(ws[1..])
  }

  /** What the display shows at position `i` of `name`: underscores become spaces and the
      first character of every piece is upper-cased. */
  function DisplayChar(name: string, i: nat): char
    requires i < |name|
  {
    if name[i] == '_' then ' '
    else if i == 0 || name[i - 1] == '_' then Upper(name[i])
    else name[i]
  }

  function FormatModelName(name: string): (r: string)
    ensures |r| == |name|
    ensures forall i :: 0 <= i < |name| ==> r[i] == DisplayChar(name, i)
  {
    FormatsPointwise(name);
    JoinSpace(CapitaliseAll(SplitUnderscore(name)))
  }

  lemma FormatsPointwise(name: string)
    ensures |JoinSpace(CapitaliseAll(SplitUnderscore(name)))| == |name|
    ensures forall i :: 0 <= i < |name| ==>
              JoinSpace(CapitaliseAll(SplitUnderscore(name)))[i] == DisplayChar(name, i)
  {
    SplitFormatsPointwise(name);
    PointwiseShape(name, true);
    forall i | 0 <= i < |name|
      ensures Pointwise(name, true)[i] == DisplayChar(name, i)
    {
      assert Pointwise(name, true)[i] == PointwiseAt(name, true, i);
    }
  }

  /** Character-by-character reading of the same transformation; `atStart` says whether the
      first character begins a piece. */
  function Pointwise(s: string, atStart: bool): string {
    if s == [] then []
    else [if s[0] == '_' then ' ' else if atStart then Upper(s[0]) else s[0]]
         + Pointwise(s[1..], s[0] == '_')
  }

  /** Position `i` of the pointwise reading. */
  function PointwiseAt(s: string, atStart: bool, i: nat): char
    requires i < |s|
  {
    if s[i] == '_' then ' '
    else if (i == 0 && atStart) || (i > 0 && s[i - 1] == '_') then Upper(s[i])
    else s[i]
  }

  lemma {:induction false} PointwiseShape(s: string, atStart: bool)
    ensures |Pointwise(s, atStart)| == |s|
    ensures forall i :: 0 <= i < |s| ==> Pointwise(s, atStart)[i] == PointwiseAt(s, atStart, i)
  {
    if s != [] {
      PointwiseShape(s[1..], s[0] == '_');
      var p := Pointwise(s, atStart);
      forall i | 0 <= i < |s| ensures p[i] == PointwiseAt(s, atStart, i) {
        if i > 0 {
          assert p[i] == Pointwise(s[1..], s[0] == '_')[i - 1];
          assert p[i] == PointwiseAt(s[1..], s[0] == '_', i - 1);
          assert s[1..][i - 1] == s[i];
          if i > 1 { assert s[1..][i - 2] == s[i - 1]; }
        }
      }
    }
  }

  lemma JoinConsChar(c: char, w: string, ws: seq<string>)
    ensures JoinSpace([[c] + w] + ws) == [c] + JoinSpace([w] + ws)
  {
    if ws != [] {
      assert ([[c] + w] + ws)[1..] == ws;
      assert ([w] + ws)[1..] == ws;
    }
  }

  /** Split-capitalise-join agrees with the pointwise reading; the second conjunct is the
      same with the first piece left as it is. */
  lemma {:induction false} SplitFormatsPointwise(s: string)
    ensures JoinSpace(CapitaliseAll(SplitUnderscore(s))) == Pointwise(s, true)
    ensures var ws := SplitUnderscore(s);
            JoinSpace([ws[0]] + CapitaliseAll(ws[1..])) == Pointwise(s, false)
  {
    if s != [] {
      SplitFormatsPointwise(s[1..]);
      if s[0] == '_' {
        UnderscoreStep(s);
      } else {
        CharacterStep(s);
      }
    }
  }

  /** The inductive step of `SplitFormatsPointwise` for a leading underscore. */
  lemma UnderscoreStep(s: string)
    requires s != [] && s[0] == '_'
    requires JoinSpace(CapitaliseAll(SplitUnderscore(s[1..]))) == Pointwise(s[1..], true)
    ensures JoinSpace(CapitaliseAll(SplitUnderscore(s))) == Pointwise(s, true)
    ensures var ws := SplitUnderscore(s);
            JoinSpace([ws[0]] + CapitaliseAll(ws[1..])) == Pointwise(s, false)
  {
    var rest := SplitUnderscore(s[1..]);
    var tail := CapitaliseAll(rest);
    var ws := [[]] + rest;
    assert SplitUnderscore(s) == ws;
    assert ws[1..] == rest;
    assert CapitaliseAll(ws) == [[]] + tail;
    assert [ws[0]] + CapitaliseAll(ws[1..]) == [[]] + tail;
    assert ([[]] + tail)[1..] == tail;
    assert JoinSpace([[]] + tail) == " " + JoinSpace(tail);
    assert Pointwise(s, true) == " " + Pointwise(s[1..], true);
    assert Pointwise(s, false) == " " + Pointwise(s[1..], true);
  }

  /** The inductive step of `SplitFormatsPointwise` for a leading character other than `_`. */
  lemma CharacterStep(s: string)
    requires s != [] && s[0] != '_'
    requires var ws := SplitUnderscore(s[1..]);
             JoinSpace([ws[0]] + CapitaliseAll(ws[1..])) == Pointwise(s[1..], false)
    ensures JoinSpace(CapitaliseAll(SplitUnderscore(s))) == Pointwise(s, true)
    ensures var ws := SplitUnderscore(s);
            JoinSpace([ws[0]] + CapitaliseAll(ws[1..])) == Pointwise(s, false)
  {
    var rest := SplitUnderscore(s[1..]);
    var more := CapitaliseAll(rest[1..]);
    var ws := [[s[0]] + rest[0]] + rest[1..];
    assert SplitUnderscore(s) == ws;
    assert ws[0] == [s[0]] + rest[0];
    assert ws[1..] == rest[1..];
    assert CapitaliseAll(ws) == [[Upper(s[0])] + rest[0]] + more;
    JoinConsChar(Upper(s[0]), rest[0], more);
    JoinConsChar(s[0], rest[0], more);
    assert Pointwise(s, true) == [Upper(s[0])] + Pointwise(s[1..], false);
    assert Pointwise(s, false) == [s[0]] + Pointwise(s[1..], false);
  }

  /** Underscores never survive formatting. */
  lemma NoUnderscoreShown(name: string)
    ensures '_' !in FormatModelName(name)
  {
    var r := FormatModelName(name);
    forall i | 0 <= i < |r| ensures r[i] != '_' {
      assert r[i] == DisplayChar(name, i);
    }
  }

  /** A space is shown exactly where the name had an underscore (or already had a space). */
  lemma SpacesMarkUnderscores(name: string, i: nat)
    requires i < |name|
    ensures FormatModelName(name)[i] == ' ' <==> name[i] == '_' || name[i] == ' '
  {
  }
}
