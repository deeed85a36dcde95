/** What the string primitives of the fingerprint mean, said without them: which characters
    they touch, where what they return stands in the text, and when two texts count as the
    same. */
module TextMeaning {
  import opened Text

  // ---------------------------------------------------------- characters, addresses

  /** The characters that count as white space, one by one. */
  const SPACES: seq<int> := [9, 10, 11, 12, 13, 32, 160, 5760, 8192, 8193, 8194, 8195, 8196, 8197, 8198, 8199,
                             8200, 8201, 8202, 8232, 8233, 8239, 8287, 12288, 65279]

  lemma SpacesListed(c: char)
    ensures IsSpace(c) <==> c as int in SPACES
  {
    assert SPACES[0] == 9 && SPACES[1] == 10 && SPACES[2] == 11 && SPACES[3] == 12 && SPACES[4] == 13;
    assert SPACES[5] == 32 && SPACES[6] == 160 && SPACES[7] == 5760;
    assert SPACES[8] == 8192 && SPACES[9] == 8193 && SPACES[10] == 8194 && SPACES[11] == 8195 && SPACES[12] == 8196;
    assert SPACES[13] == 8197 && SPACES[14] == 8198 && SPACES[15] == 8199 && SPACES[16] == 8200;
    assert SPACES[17] == 8201 && SPACES[18] == 8202 && SPACES[19] == 8232 && SPACES[20] == 8233;
    assert SPACES[21] == 8239 && SPACES[22] == 8287 && SPACES[23] == 12288 && SPACES[24] == 65279;
  }

  const UPPER := "ABCDEFGHIJKLMNOPQRSTUVWXYZ"
  const LOWER := "abcdefghijklmnopqrstuvwxyz"

  lemma LetterAt(i: nat)
    requires i < 26
    ensures UPPER[i] == 'A' + i as char && LOWER[i] == 'a' + i as char
  {}

  /** On ASCII, lower-casing is the alphabet's, and leaves all else as it is. */
  lemma AsciiLowered(c: char, i: nat)
    requires (c as int) < 128 && i < 26
    ensures c == UPPER[i] ==> LowerChar(c) == LOWER[i]
    ensures c !in UPPER ==> LowerChar(c) == c
  {
    LetterAt(i);
    var letters := UPPER;
    if 'A' <= c <= 'Z' {
      LetterAt(c as int - 'A' as int);
      assert letters[c as int - 'A' as int] == c;
    }
    hide UPPER, LOWER;
  }

  /** t is what is left of s when white space is removed at both ends. */
  ghost predicate IsCore(s: string, t: string) {
    exists lo, hi :: 0 <= lo <= hi <= |s| && CoreAt(s, t, lo, hi)
  }

  predicate CoreAt(s: string, t: string, lo: nat, hi: nat)
    requires lo <= hi <= |s|
  {
    && t == s[lo..hi]
    && (forall i :: 0 <= i < lo ==> IsSpace(s[i])) && (forall i :: hi <= i < |s| ==> IsSpace(s[i]))
    && (t != [] ==> !IsSpace(t[0]) && !IsSpace(t[|t| - 1]))
  }

  /** Trimming leaves exactly that. */
  lemma TrimIsCore(s: string, t: string)
    ensures IsCore(s, t) <==> t == Trim(s)
  {
    hide IsSpace;
    if IsCore(s, t) {
      var lo, hi :| 0 <= lo <= hi <= |s| && CoreAt(s, t, lo, hi);
      CoreTrimmed(s, t, lo, hi);
    }
    if t == Trim(s) { TrimCore(s); }
  }

  lemma CoreTrimmed(s: string, t: string, lo: nat, hi: nat)
    requires lo <= hi <= |s| && CoreAt(s, t, lo, hi)
    ensures Trim(s) == t
  {
    hide IsSpace;
    TrimStartSkips(s, lo);
    if lo == hi {
      TrimStartSkips(s[lo..], |s| - lo);
    } else {
      assert s[lo..][0] == t[0] && TrimStart(s[lo..]) == s[lo..];
      TrimEndSkips(s[lo..], hi - lo);
      assert s[lo..][..hi - lo] == t;
    }
  }

  lemma {:induction false} TrimEndPart(s: string) returns (hi: nat)
    ensures hi <= |s| && TrimEnd(s) == s[..hi] && forall i :: hi <= i < |s| ==> IsSpace(s[i])
  {
    hi := |s|;
    if s != [] && IsSpace(s[|s| - 1]) {
      hi := TrimEndPart(s[..|s| - 1]);
      assert s[..|s| - 1][..hi] == s[..hi];
    }
  }

  lemma {:induction false} TrimStartPart(s: string) returns (lo: nat)
    ensures lo <= |s| && TrimStart(s) == s[lo..] && forall i :: 0 <= i < lo ==> IsSpace(s[i])
  {
    lo := 0;
    if s != [] && IsSpace(s[0]) {
      lo := TrimStartPart(s[1..]);
      lo := lo + 1;
      assert forall i :: 0 < i < lo ==> s[i] == s[1..][i - 1];
    }
  }

  lemma TrimCore(s: string)
    ensures IsCore(s, Trim(s))
  {
    hide IsSpace;
    var lo := TrimStartPart(s);
    var hi := TrimEndPart(TrimStart(s));
    TrimSpec(s);
    assert Trim(s) == s[lo..lo + hi];
    assert forall i :: lo + hi <= i < |s| ==> s[i] == TrimStart(s)[i - lo];
    assert CoreAt(s, Trim(s), lo, lo + hi);
  }

  /** Two addresses that differ only in white space around them and in letter case. */
  ghost predicate SameAddress(a: string, b: string) {
    exists s, t :: IsCore(a, s) && IsCore(b, t) && AgreeInCase(s, t)
  }

  predicate AgreeInCase(s: string, t: string) {
    |s| == |t| && forall i :: 0 <= i < |s| ==> CASE(s[i]) == CASE(t[i])
  }

  lemma AgreeLower(s: string, t: string)
    ensures AgreeInCase(s, t) <==> Lower(s) == Lower(t)
  {
    LowerAt(s);
    LowerAt(t);
    if Lower(s) == Lower(t) {
      forall i | 0 <= i < |s| ensures CASE(s[i]) == CASE(t[i]) { assert Lower(s)[i] == Lower(t)[i]; }
    }
  }

  /** Addresses normalise alike exactly when they are the same in this sense. */
  lemma EmailEquivalence(a: string, b: string)
    ensures NormaliseEmail(a) == NormaliseEmail(b) <==> SameAddress(a, b)
  {
    hide IsCore, Trim, AgreeInCase;
    TrimIsCore(a, Trim(a));
    TrimIsCore(b, Trim(b));
    AgreeLower(Trim(a), Trim(b));
    if SameAddress(a, b) {
      var s, t :| IsCore(a, s) && IsCore(b, t) && AgreeInCase(s, t);
      TrimIsCore(a, s);
      TrimIsCore(b, t);
    }
  }

  // ------------------------------------------------------------------ words, messages

  type Place = (nat, nat)

  /** w stands in s from p.0 up to p.1 and has no white space. */
  predicate Stretch(s: string, w: string, p: Place) {
    p.0 < p.1 <= |s| && w == s[p.0..p.1] && forall x :: p.0 <= x < p.1 ==> !IsSpace(s[x])
  }

  predicate Inside(ps: seq<Place>, x: int) { exists i :: 0 <= i < |ps| && ps[i].0 <= x < ps[i].1 }

  /** The words stand in s at these places, in order and apart, and outside of them there is
      only white space. */
  predicate WordsAt(s: string, ws: seq<string>, ps: seq<Place>) {
    && |ps| == |ws|
    && (forall i :: 0 <= i < |ws| ==> Stretch(s, ws[i], ps[i]))
    && (forall i :: 0 <= i < |ps| - 1 ==> ps[i].1 < ps[i + 1].0)
    && (forall x :: 0 <= x < |s| && !IsSpace(s[x]) ==> Inside(ps, x))
  }

  function Shifted(ps: seq<Place>, n: nat): seq<Place> {
    seq(|ps|, j requires 0 <= j < |ps| => (ps[j].0 + n, ps[j].1 + n))
  }

  lemma StretchShift(s: string, n: nat, w: string, p: Place)
    requires n <= |s| && Stretch(s[n..], w, p)
    ensures Stretch(s, w, (p.0 + n, p.1 + n))
  {
    hide IsSpace;
    assert s[n..][p.0..p.1] == s[p.0 + n..p.1 + n];
    forall x | p.0 + n <= x < p.1 + n ensures !IsSpace(s[x]) { assert s[x] == s[n..][x - n]; }
  }

  lemma InsideShift(ps: seq<Place>, n: nat, x: int)
    requires Inside(ps, x)
    ensures Inside(Shifted(ps, n), x + n)
  {
    var i :| 0 <= i < |ps| && ps[i].0 <= x < ps[i].1;
    assert Shifted(ps, n)[i].0 <= x + n < Shifted(ps, n)[i].1;
  }

  lemma InsideCons(p: Place, ps: seq<Place>, x: int)
    requires Inside(ps, x) || p.0 <= x < p.1
    ensures Inside([p] + ps, x)
  {
    if Inside(ps, x) {
      var i :| 0 <= i < |ps| && ps[i].0 <= x < ps[i].1;
      assert ([p] + ps)[i + 1].0 <= x < ([p] + ps)[i + 1].1;
    } else {
      assert ([p] + ps)[0] == p;
    }
  }

  /** The words behind the first n characters, seen from the whole text. */
  lemma ShiftedWords(s: string, n: nat, ws: seq<string>, ps: seq<Place>)
    requires n <= |s| && WordsAt(s[n..], ws, ps)
    ensures forall i :: 0 <= i < |ws| ==> |ps| == |ws| && Stretch(s, ws[i], Shifted(ps, n)[i])
    ensures forall i :: 0 <= i < |ps| - 1 ==> Shifted(ps, n)[i].1 < Shifted(ps, n)[i + 1].0
    ensures forall x :: n <= x < |s| && !IsSpace(s[x]) ==> Inside(Shifted(ps, n), x)
  {
    hide IsSpace, Stretch, Inside;
    forall i | 0 <= i < |ws| ensures Stretch(s, ws[i], Shifted(ps, n)[i]) { StretchShift(s, n, ws[i], ps[i]); }
    forall x | n <= x < |s| && !IsSpace(s[x]) ensures Inside(Shifted(ps, n), x) {
      assert s[x] == s[n..][x - n];
      InsideShift(ps, n, x - n);
    }
  }

  lemma SpaceInFront(s: string, ws: seq<string>, ps: seq<Place>)
    requires s != [] && IsSpace(s[0]) && WordsAt(s[1..], ws, ps)
    ensures WordsAt(s, ws, Shifted(ps, 1))
  {
    hide IsSpace, Stretch, Inside;
    ShiftedWords(s, 1, ws, ps);
  }

  lemma WordInFront(s: string, n: nat, ws: seq<string>, ps: seq<Place>)
    requires 0 < n <= |s| && (forall x :: 0 <= x < n ==> !IsSpace(s[x])) && (n < |s| ==> IsSpace(s[n]))
    requires WordsAt(s[n..], ws, ps)
    ensures WordsAt(s, [s[..n]] + ws, [(0, n)] + Shifted(ps, n))
  {
    hide IsSpace, Inside;
    ShiftedWords(s, n, ws, ps);
    if ps != [] { FirstPlace(s, n, ws, ps); }
    assert Stretch(s, s[..n], (0, n)) by { assert s[..n] == s[0..n]; }
    hide Stretch;
    forall x | 0 <= x < |s| && !IsSpace(s[x]) ensures Inside([(0, n)] + Shifted(ps, n), x) {
      InsideCons((0, n), Shifted(ps, n), x);
    }
  }

  lemma FirstPlace(s: string, n: nat, ws: seq<string>, ps: seq<Place>)
    requires n <= |s| && (n < |s| ==> IsSpace(s[n])) && WordsAt(s[n..], ws, ps) && ps != []
    ensures n < Shifted(ps, n)[0].0
  {
    hide IsSpace, Inside;
    assert Stretch(s[n..], ws[0], ps[0]);
    assert s[n..][ps[0].0] == s[n + ps[0].0];
  }

  /** The words of a text are its maximal stretches without white space, all of them and in
      order. */
  lemma {:induction false} WordPlaces(s: string) returns (ps: seq<Place>)
    ensures WordsAt(s, Words(s), ps)
    decreases |s|
  {
    hide WordsAt, IsSpace;
    if s == [] {
      ps := [];
      NoWordPlaces();
    } else if IsSpace(s[0]) {
      ps := WordPlaces(s[1..]);
      SpaceInFront(s, Words(s), ps);
      ps := Shifted(ps, 1);
    } else {
      var n := |FirstWord(s)|;
      ps := WordPlaces(s[n..]);
      WordInFront(s, n, Words(s[n..]), ps);
      ps := [(0, n)] + Shifted(ps, n);
    }
  }

  lemma NoWordPlaces()
    ensures WordsAt([], [], [])
  {}

  /** Two messages with the same words, up to case. */
  predicate SameWords(a: string, b: string) {
    && |Words(a)| == |Words(b)|
    && forall i :: 0 <= i < |Words(a)| ==> AgreeInCase(Words(a)[i], Words(b)[i])
  }

  lemma {:induction false} LowerAllAt(ws: seq<string>)
    ensures |LowerAll(ws)| == |ws| && forall i :: 0 <= i < |ws| ==> LowerAll(ws)[i] == Lower(ws[i])
  {
    if ws != [] { LowerAllAt(ws[1..]); }
  }

  /** Messages normalise alike exactly when they have the same words in this sense. */
  lemma MessageEquivalence(a: string, b: string)
    ensures NormaliseMessage(a) == NormaliseMessage(b) <==> SameWords(a, b)
  {
    hide Words, AgreeInCase, Lower;
    NormaliseEquivalence(a, b);
    LowerAllAt(Words(a));
    LowerAllAt(Words(b));
    forall i | 0 <= i < |Words(a)| && i < |Words(b)|
      ensures AgreeInCase(Words(a)[i], Words(b)[i]) <==> LowerAll(Words(a))[i] == LowerAll(Words(b))[i]
    {
      AgreeLower(Words(a)[i], Words(b)[i]);
    }
  }

  // ------------------------------------------------------------------- digits, phones

  predicate Increasing(ix: seq<nat>) {
    forall i, j :: 0 <= i < j < |ix| ==> ix[i] < ix[j]
  }

  /** d is what stands in s at the places ix. */
  predicate Reads(s: string, d: string, ix: seq<nat>) {
    |d| == |ix| && forall j :: 0 <= j < |ix| ==> ix[j] < |s| && d[j] == s[ix[j]]
  }

  /** ix is the places of the digits of s. */
  predicate Finds(s: string, ix: seq<nat>) {
    forall i :: 0 <= i < |s| ==> (s[i] in "0123456789" <==> i in ix)
  }

  /** d is the digits of s in order: ix lists their places. */
  predicate PickedAt(s: string, d: string, ix: seq<nat>) {
    Increasing(ix) && Reads(s, d, ix) && Finds(s, ix)
  }

  lemma DigitsListed(c: char)
    ensures IsDigit(c) <==> c in "0123456789"
  {
    if IsDigit(c) { assert "0123456789"[c as int - '0' as int] == c; }
  }

  function Moved(ix: seq<nat>): seq<nat> { seq(|ix|, j requires 0 <= j < |ix| => ix[j] + 1) }

  lemma MovedPlaces(ix: seq<nat>)
    requires Increasing(ix)
    ensures Increasing(Moved(ix)) && 0 !in Moved(ix) && Increasing([0] + Moved(ix))
    ensures forall i: nat :: i + 1 in Moved(ix) <==> i in ix
  {
    forall i: nat ensures i + 1 in Moved(ix) <==> i in ix {
      if i in ix {
        var j :| 0 <= j < |ix| && ix[j] == i;
        assert Moved(ix)[j] == i + 1;
      }
    }
  }

  lemma FindsCons(c: char, s: string, ix: seq<nat>)
    requires Finds(s, ix) && Increasing(ix)
    ensures Finds([c] + s, if c in "0123456789" then [0] + Moved(ix) else Moved(ix))
  {
    var t, places := [c] + s, if c in "0123456789" then [0] + Moved(ix) else Moved(ix);
    MovedPlaces(ix);
    hide Moved, Increasing;
    forall i: nat | i < |t| ensures t[i] in "0123456789" <==> i in places {
      if i > 0 {
        assert t[i] == s[i - 1] && (i - 1) + 1 == i;
        assert i in Moved(ix) <==> i - 1 in ix;
      }
    }
  }

  lemma ReadsCons(c: char, s: string, d: string, ix: seq<nat>)
    requires Reads(s, d, ix)
    ensures Reads([c] + s, d, Moved(ix)) && Reads([c] + s, [c] + d, [0] + Moved(ix))
  {
    var t := [c] + s;
    assert forall j :: 0 <= j < |ix| ==> Moved(ix)[j] < |t| && t[Moved(ix)[j]] == s[ix[j]];
  }

  lemma PickedCons(c: char, s: string, d: string, ix: seq<nat>)
    requires PickedAt(s, d, ix)
    ensures if c in "0123456789" then PickedAt([c] + s, [c] + d, [0] + Moved(ix))
            else PickedAt([c] + s, d, Moved(ix))
  {
    hide Increasing, Reads, Finds, Moved;
    MovedPlaces(ix);
    ReadsCons(c, s, d, ix);
    FindsCons(c, s, ix);
  }

  lemma {:induction false} DigitPlaces(s: string) returns (ix: seq<nat>)
    ensures PickedAt(s, Digits(s), ix)
  {
    hide PickedAt, IsDigit;
    ix := [];
    if s == [] {
      NonePicked();
    } else {
      var rest := DigitPlaces(s[1..]);
      DigitsListed(s[0]);
      PickedCons(s[0], s[1..], Digits(s[1..]), rest);
      assert s == [s[0]] + s[1..];
      ix := if IsDigit(s[0]) then [0] + Moved(rest) else Moved(rest);
      assert [] + Digits(s[1..]) == Digits(s[1..]);
    }
  }

  lemma NonePicked()
    ensures PickedAt([], [], [])
  {}

  /** Only one text is the digits of s in order. */
  lemma {:induction false} PickedOnce(s: string, d: string, ix: seq<nat>, e: string, iy: seq<nat>)
    requires PickedAt(s, d, ix) && PickedAt(s, e, iy)
    ensures d == e
  {
    SamePlaces(s, ix, iy);
  }

  lemma HeadPlace(ix: seq<nat>)
    requires ix != []
    ensures exists i: nat :: i in ix
  {
    assert ix[0] in ix;
  }

  lemma {:induction false} SamePlaces(s: string, ix: seq<nat>, iy: seq<nat>)
    requires Increasing(ix) && Increasing(iy) && forall i: nat :: i in ix <==> i in iy
    ensures ix == iy
    decreases |ix|
  {
    if ix == [] {
      if iy != [] {
        HeadPlace(iy);
        assert false;
      }
    } else {
      assert ix[0] in iy && iy != [] && iy[0] in ix;
      assert ix[0] == iy[0];
      forall i: nat ensures i in ix[1..] <==> i in iy[1..] {
        if i in ix[1..] { assert i in ix && i > ix[0] && i in iy; }
        if i in iy[1..] { assert i in iy && i > iy[0] && i in ix; }
      }
      SamePlaces(s, ix[1..], iy[1..]);
    }
  }

  /** Two phone numbers with the same digits in the same order. */
  ghost predicate SameDigits(a: string, b: string) {
    exists d, ix, iy :: PickedAt(a, d, ix) && PickedAt(b, d, iy)
  }

  lemma PhoneEquivalence(a: string, b: string)
    ensures Digits(a) == Digits(b) <==> SameDigits(a, b)
  {
    hide PickedAt;
    var ia := DigitPlaces(a);
    var ib := DigitPlaces(b);
    if SameDigits(a, b) {
      var d, ix, iy :| PickedAt(a, d, ix) && PickedAt(b, d, iy);
      PickedOnce(a, d, ix, Digits(a), ia);
      PickedOnce(b, d, iy, Digits(b), ib);
    }
  }

  /** A digit stays and any other character goes. */
  lemma DigitsOfOne(c: char)
    ensures Digits([c]) == if c in "0123456789" then [c] else []
  {
    hide IsDigit;
    DigitsListed(c);
    assert [c][1..] == [] && Digits([]) == [];
  }

  /** The parts of a text keep their digits in turn. */
  lemma {:induction false} DigitsOfParts(a: string, b: string)
    ensures Digits(a + b) == Digits(a) + Digits(b)
  {
    hide IsDigit;
    if a == [] {
      assert a + b == b && Digits(a) == [];
    } else {
      var head, rest := if IsDigit(a[0]) then [a[0]] else [], a[1..];
      assert (a + b)[1..] == rest + b && (a + b)[0] == a[0];
      DigitsOfParts(rest, b);
      assert Digits(a + b) == head + Digits(rest + b) && Digits(a) == head + Digits(rest);
      hide Digits;
      assert head + (Digits(rest) + Digits(b)) == (head + Digits(rest)) + Digits(b);
    }
  }
}
