/**
 The opt-out list of a user: written as one comma-separated string
 (app/api/v1/endpoints/preferences.py) and read back as a list (app/models/user_preference.py).
 The whitespace test of the string library is a parameter; all that matters is that a comma is not whitespace.
 */
module OptOut {
  import opened Wrappers

  type Spaces = p: char -> bool | !p(',') witness (c: char) => c == ' '

  function Join(xs: seq<string>): string {
    if xs == [] then "" else if |xs| == 1 then xs[0] else xs[0] + "," + Join(xs[1..])
  }

  /** The pieces between commas; always at least one. */
  function Split(s: string): (parts: seq<string>)
    ensures parts != []
  {
    if s == "" then [""]
    else
      var parts := Split(s[1..]);
      if s[0] == ',' then [""] + parts else [[s[0]] + parts[0]] + parts[1..]
  }

  function StripLeft(sp: Spaces, s: string): string {
    if s != "" && sp(s[0]) then StripLeft(sp, s[1..]) else s
  }

  function StripRight(sp: Spaces, s: string): string {
    if s != "" && sp(s[|s| - 1]) then StripRight(sp, s[..|s| - 1]) else s
  }

  function Strip(sp: Spaces, s: string): string {
    StripRight(sp, StripLeft(sp, s))
  }

  /** Every piece stripped, the empty ones left out. */
  function Names(sp: Spaces, parts: seq<string>): seq<string> {
    if parts == [] then []
    else (if Strip(sp, parts[0]) != "" then [Strip(sp, parts[0])] else []) + Names(sp, parts[1..])
  }

  function GetDisabledEvents(sp: Spaces, stored: Option<string>): seq<string> {
    if stored == None || stored.value == "" then [] else Names(sp, Split(stored.value))
  }

  predicate IsName(sp: Spaces, x: string) {
    x != "" && !sp(x[0]) && !sp(x[|x| - 1]) && ',' !in x
  }

  predicate AreNames(sp: Spaces, xs: seq<string>) {
    forall i :: 0 <= i < |xs| ==> IsName(sp, xs[i])
  }

  /** The stored preference row, as far as the opt-out column goes. */
  class UserPreference {
    var disabledEventTypes: Option<string>

    constructor ()
      ensures disabledEventTypes == None
    {
      disabledEventTypes := None;
    }

    /** A payload without the list leaves the column alone; an empty list clears it. */
    method Update(sp: Spaces, list: Option<seq<string>>)
      modifies this
      ensures list == None ==> disabledEventTypes == old(disabledEventTypes)
      ensures list != None ==> disabledEventTypes == Some(Join(list.value))
      ensures list != None && AreNames(sp, list.value) ==> GetDisabledEvents(sp, disabledEventTypes) == list.value
    {
      if list != None {
        disabledEventTypes := Some(Join(list.value));
        if AreNames(sp, list.value) {
          SplitOfJoin(sp, list.value);
        }
      }
    }
  }

  lemma {:induction false} SplitAtComma(x: string, rest: string)
    requires ',' !in x
    ensures Split(x + "," + rest) == [x] + Split(rest)
  {
    if x == "" {
      assert ("" + "," + rest)[1..] == rest;
    } else {
      SplitAtComma(x[1..], rest);
      assert (x + "," + rest)[1..] == x[1..] + "," + rest;
      assert [x[0]] + x[1..] == x;
    }
  }

  lemma {:induction false} SplitWhole(x: string)
    requires ',' !in x
    ensures Split(x) == [x]
  {
    if x != "" {
      SplitWhole(x[1..]);
      assert [x[0]] + x[1..] == x;
    }
  }

  lemma {:induction false} SplitJoin(xs: seq<string>)
    requires xs != [] && forall i :: 0 <= i < |xs| ==> ',' !in xs[i]
    ensures Split(Join(xs)) == xs
  {
    if |xs| == 1 {
      SplitWhole(xs[0]);
    } else {
      SplitJoin(xs[1..]);
      SplitAtComma(xs[0], Join(xs[1..]));
    }
  }

  lemma {:induction false} NamesOfNames(sp: Spaces, xs: seq<string>)
    requires AreNames(sp, xs)
    ensures Names(sp, xs) == xs
  {
    if xs != [] {
      NamesOfNames(sp, xs[1..]);
      assert IsName(sp, xs[0]);
    }
  }

  /** Reading back a joined list of names gives the list, the empty one included. */
  lemma SplitOfJoin(sp: Spaces, xs: seq<string>)
    requires AreNames(sp, xs)
    ensures GetDisabledEvents(sp, Some(Join(xs))) == xs
  {
    if xs != [] {
      assert forall i :: 0 <= i < |xs| ==> IsName(sp, xs[i]);
      SplitJoin(xs);
      NamesOfNames(sp, xs);
      assert Join(xs) != "" by {
        assert IsName(sp, xs[0]);
      }
    }
  }

  lemma {:induction false} SplitHasNoComma(s: string, i: nat)
    requires i < |Split(s)|
    ensures ',' !in Split(s)[i]
  {
    if s != "" {
      if s[0] == ',' {
        if i > 0 {
          SplitHasNoComma(s[1..], i - 1);
        }
      } else {
        SplitHasNoComma(s[1..], i);
      }
    }
  }

  lemma {:induction false} StripLeftSpec(sp: Spaces, s: string)
    ensures var r := StripLeft(sp, s);
            (r != "" ==> !sp(r[0])) && (',' in r ==> ',' in s)
  {
    if s != "" && sp(s[0]) {
      StripLeftSpec(sp, s[1..]);
    }
  }

  lemma {:induction false} StripRightSpec(sp: Spaces, s: string)
    ensures var r := StripRight(sp, s);
            r <= s && (r != "" ==> !sp(r[|r| - 1]))
  {
    if s != "" && sp(s[|s| - 1]) {
      StripRightSpec(sp, s[..|s| - 1]);
    }
  }

  lemma {:induction false} NamesAreNames(sp: Spaces, parts: seq<string>)
    requires forall i :: 0 <= i < |parts| ==> ',' !in parts[i]
    ensures AreNames(sp, Names(sp, parts))
  {
    if parts != [] {
      NamesAreNames(sp, parts[1..]);
      StripLeftSpec(sp, parts[0]);
      StripRightSpec(sp, StripLeft(sp, parts[0]));
    }
  }

  /** Whatever string is stored, writing back what was read from it changes nothing a reader sees. */
  lemma JoinOfSplit(sp: Spaces, stored: Option<string>)
    ensures AreNames(sp, GetDisabledEvents(sp, stored))
    ensures GetDisabledEvents(sp, Some(Join(GetDisabledEvents(sp, stored)))) == GetDisabledEvents(sp, stored)
  {
    if stored != None && stored.value != "" {
      forall i | 0 <= i < |Split(stored.value)| ensures ',' !in Split(stored.value)[i] {
        SplitHasNoComma(stored.value, i);
      }
      NamesAreNames(sp, Split(stored.value));
    }
    SplitOfJoin(sp, GetDisabledEvents(sp, stored));
  }

  // ---------------------------------------------------------------------------------------------
  // Which names a stored string disables
  // ---------------------------------------------------------------------------------------------

  /** s[a..d] is all that stands between two commas, or a comma and an end. */
  ghost predicate IsPiece(s: string, a: nat, d: nat) {
    && a <= d <= |s| && ',' !in s[a..d]
    && (a == 0 || s[a - 1] == ',') && (d == |s| || s[d] == ',')
  }

  lemma {:induction false} PieceAt(s: string, i: nat) returns (a: nat, d: nat)
    requires i < |Split(s)|
    ensures IsPiece(s, a, d) && s[a..d] == Split(s)[i] && (i == 0 <==> a == 0)
  {
    if s == "" || (s[0] == ',' && i == 0) {
      a, d := 0, 0;
    } else {
      var i' := if s[0] == ',' then i - 1 else i;
      var a', d' := PieceAt(s[1..], i');
      assert forall k :: 1 <= k < |s| ==> s[k] == s[1..][k - 1];
      a, d := if i == 0 then 0 else a' + 1, d' + 1;
      if i == 0 {
        assert s[0..d] == [s[0]] + s[1..][..d'];
      } else {
        assert s[a..d] == s[1..][a'..d'];
      }
    }
  }

  lemma {:induction false} PieceIsThere(s: string, a: nat, d: nat) returns (i: nat)
    requires IsPiece(s, a, d)
    ensures i < |Split(s)| && Split(s)[i] == s[a..d] && (i == 0 <==> a == 0)
  {
    if s == "" || (s[0] == ',' && d == 0) {
      i := 0;
    } else if a == 0 {
      assert s[0] in s[a..d] by {
        assert d > 0 && s[a..d][0] == s[0];
      }
      assert s[1..][0..d - 1] == s[a..d][1..];
      assert IsPiece(s[1..], 0, d - 1) by {
        assert forall c :: c in s[a..d][1..] ==> c in s[a..d];
      }
      i := PieceIsThere(s[1..], 0, d - 1);
      assert [s[0]] + s[a..d][1..] == s[a..d];
    } else {
      assert s[1..][a - 1..d - 1] == s[a..d];
      assert IsPiece(s[1..], a - 1, d - 1);
      var i' := PieceIsThere(s[1..], a - 1, d - 1);
      i := if s[0] == ',' then i' + 1 else i';
    }
  }

  predicate Blank(sp: Spaces, s: string) {
    forall i :: 0 <= i < |s| ==> sp(s[i])
  }

  lemma {:induction false} StripLeftCuts(sp: Spaces, s: string) returns (b: nat)
    ensures b <= |s| && StripLeft(sp, s) == s[b..] && Blank(sp, s[..b])
  {
    if s != "" && sp(s[0]) {
      var b' := StripLeftCuts(sp, s[1..]);
      b := b' + 1;
      assert s[b..] == s[1..][b'..] && s[..b] == [s[0]] + s[1..][..b'];
    } else {
      b := 0;
    }
  }

  lemma {:induction false} StripRightCuts(sp: Spaces, s: string) returns (c: nat)
    ensures c <= |s| && StripRight(sp, s) == s[..c] && Blank(sp, s[c..])
  {
    if s != "" && sp(s[|s| - 1]) {
      c := StripRightCuts(sp, s[..|s| - 1]);
      assert s[..|s| - 1][..c] == s[..c] && s[c..] == s[..|s| - 1][c..] + [s[|s| - 1]];
    } else {
      c := |s|;
    }
  }

  /** What remains of a name between blanks is the name. */
  lemma {:induction false} StripBlanks(sp: Spaces, l: string, x: string, r: string)
    requires Blank(sp, l) && Blank(sp, r) && IsName(sp, x)
    ensures Strip(sp, l + x + r) == x
    decreases |l| + |r|
  {
    if l != "" {
      assert (l + x + r)[0] == l[0] && (l + x + r)[1..] == l[1..] + x + r;
      StripBlanks(sp, l[1..], x, r);
    } else {
      assert l + x + r == x + r && (x + r)[0] == x[0];
      if r != "" {
        var init := r[..|r| - 1];
        assert (x + r)[..|x + r| - 1] == x + init && (x + init)[0] == x[0];
        assert l + x + init == x + init;
        StripBlanks(sp, l, x, init);
      } else {
        assert x + r == x;
      }
    }
  }

  lemma StripIs(sp: Spaces, s: string) returns (b: nat, c: nat)
    ensures b <= c <= |s| && Strip(sp, s) == s[b..c] && Blank(sp, s[..b]) && Blank(sp, s[c..])
  {
    b := StripLeftCuts(sp, s);
    var c' := StripRightCuts(sp, s[b..]);
    c := b + c';
    assert s[b..][..c'] == s[b..c] && s[b..][c'..] == s[c..];
  }

  lemma {:induction false} NamesAre(sp: Spaces, parts: seq<string>, x: string)
    ensures x in Names(sp, parts) <==> x != "" && exists i :: 0 <= i < |parts| && Strip(sp, parts[i]) == x
  {
    if parts != [] {
      NamesAre(sp, parts[1..], x);
      if x in Names(sp, parts[1..]) {
        var i :| 0 <= i < |parts[1..]| && Strip(sp, parts[1..][i]) == x;
        assert parts[i + 1] == parts[1..][i];
      }
      if x != "" && exists i :: 0 <= i < |parts| && Strip(sp, parts[i]) == x {
        var i :| 0 <= i < |parts| && Strip(sp, parts[i]) == x;
        assert i > 0 ==> parts[1..][i - 1] == parts[i];
      }
    }
  }

  /** x stands at b..c in the stored string, between a comma or the beginning and a comma or the end, but for blanks. */
  ghost predicate StandsAt(sp: Spaces, s: string, x: string, a: nat, b: nat, c: nat, d: nat) {
    && a <= b <= c <= d <= |s| && s[b..c] == x && Blank(sp, s[a..b]) && Blank(sp, s[c..d])
    && (a == 0 || s[a - 1] == ',') && (d == |s| || s[d] == ',')
  }

  lemma StandingIsRead(sp: Spaces, s: string, x: string, a: nat, b: nat, c: nat, d: nat)
    requires IsName(sp, x) && StandsAt(sp, s, x, a, b, c, d)
    ensures x in GetDisabledEvents(sp, Some(s))
  {
    var piece := s[a..d];
    assert piece == s[a..b] + x + s[c..d];
    assert IsPiece(s, a, d);
    var i := PieceIsThere(s, a, d);
    StripBlanks(sp, s[a..b], x, s[c..d]);
    NamesAre(sp, Split(s), x);
  }

  lemma ReadIsStanding(sp: Spaces, s: string, x: string) returns (a: nat, b: nat, c: nat, d: nat)
    requires x in GetDisabledEvents(sp, Some(s))
    ensures StandsAt(sp, s, x, a, b, c, d)
  {
    hide Split, Strip, Names;
    NamesAre(sp, Split(s), x);
    assert Split(s) != [];
    var i :| 0 <= i < |Split(s)| && Strip(sp, Split(s)[i]) == x;
    a, d := PieceAt(s, i);
    var b', c' := StripIs(sp, s[a..d]);
    b, c := a + b', a + c';
    SliceOfSlice(s, a, d, b', c');
    SliceOfSlice(s, a, d, 0, b');
    SliceOfSlice(s, a, d, c', d - a);
  }

  lemma SliceOfSlice(s: string, a: nat, d: nat, b: nat, c: nat)
    requires a <= d <= |s| && b <= c <= d - a
    ensures s[a..d][b..c] == s[a + b..a + c]
  {
    assert forall k :: 0 <= k < c - b ==> s[a..d][b..c][k] == s[a + b..a + c][k];
  }

  /** A name is on the list iff it stands in the stored string between commas, or an end, with nothing but blanks. */
  lemma DisabledIffStanding(sp: Spaces, s: string, x: string)
    requires x != "" && !sp(x[0]) && !sp(x[|x| - 1]) && ',' !in x
    ensures x in GetDisabledEvents(sp, Some(s)) <==>
            exists a: nat, b: nat, c: nat, d: nat :: StandsAt(sp, s, x, a, b, c, d)
  {
    if x in GetDisabledEvents(sp, Some(s)) {
      var a, b, c, d := ReadIsStanding(sp, s, x);
    }
    if exists a: nat, b: nat, c: nat, d: nat :: StandsAt(sp, s, x, a, b, c, d) {
      var a: nat, b: nat, c: nat, d: nat :| StandsAt(sp, s, x, a, b, c, d);
      StandingIsRead(sp, s, x, a, b, c, d);
    }
  }
}
