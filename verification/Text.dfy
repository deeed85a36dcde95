/** String primitives behind the enquiry fingerprint (src/utils/hash.ts), each as a
    function and as the left-to-right scan that computes it, and the meaning of their
    composition: lower-case the list of words and join it with single spaces. */
module Text {

  /** The code points that both String.prototype.trim and the regular-expression
      class \s remove. */
  predicate IsSpace(c: char) {
    var n := c as int;
    || 0x09 <= n <= 0x0D || n == 0x20 || n == 0xA0 || n == 0x1680
    || 0x2000 <= n <= 0x200A || n == 0x2028 || n == 0x2029
    || n == 0x202F || n == 0x205F || n == 0x3000 || n == 0xFEFF
  }

  predicate IsDigit(c: char) { '0' <= c <= '9' }

  function AsciiLower(c: char): char {
    if 'A' <= c <= 'Z' then c + 32 as char else c
  }

  /** What every lower-casing of single characters does: it lower-cases ASCII letters,
      keeps other ASCII characters and all white space, makes no white space and no bar
      out of anything else, and changes nothing the second time. */
  ghost predicate IsCaseMap(f: char -> char) {
    && (forall c: char :: (c as int) < 128 ==> f(c) == AsciiLower(c))
    && (forall c: char :: if IsSpace(c) then f(c) == c else !IsSpace(f(c)))
    && (forall c: char :: f(c) == '|' ==> c == '|')
    && (forall c: char :: f(f(c)) == f(c))
  }

  type CaseMap = f: char -> char | IsCaseMap(f) witness (c: char) => AsciiLower(c)

  /** The case mapping of the platform: any one of them, so that every result below holds
      for all. */
  const CASE: CaseMap

  function LowerChar(c: char): char { CASE(c) }

  // ---------------------------------------------------------------- primitives

  function Lower(s: string): string {
    if s == [] then [] else [LowerChar(s[0])] + Lower(s[1..])
  }

  function TrimStart(s: string): string {
    if s != [] && IsSpace(s[0]) then TrimStart(s[1..]) else s
  }

  function TrimEnd(s: string): string {
    if s != [] && IsSpace(s[|s| - 1]) then TrimEnd(s[..|s| - 1]) else s
  }

  function Trim(s: string): string { TrimEnd(TrimStart(s)) }

  /** Each maximal run of white space becomes one blank. */
  function Collapse(s: string): string {
    if s == [] then []
    else if !IsSpace(s[0]) then [s[0]] + Collapse(s[1..])
    else if |s| > 1 && IsSpace(s[1]) then Collapse(s[1..])
    else [' '] + Collapse(s[1..])
  }

  /** Deletes every character that is not a digit. */
  function Digits(s: string): string {
    if s == [] then []
    else (if IsDigit(s[0]) then [s[0]] else []) + Digits(s[1..])
  }

  function NormaliseMessage(m: string): string { Collapse(Lower(Trim(m))) }

  function NormaliseEmail(e: string): string { Lower(Trim(e)) }

  // ------------------------------------------------------- word-list reference

  /** The maximal non-blank stretch at the front of s. */
  function FirstWord(s: string): (w: string)
    ensures |w| <= |s| && w == s[..|w|]
    ensures |w| < |s| ==> IsSpace(s[|w|])
    ensures IsWordChars(w)
  {
    if s == [] || IsSpace(s[0]) then [] else [s[0]] + FirstWord(s[1..])
  }

  predicate IsWordChars(w: string) {
    forall i :: 0 <= i < |w| ==> !IsSpace(w[i])
  }

  predicate IsWord(w: string) { w != [] && IsWordChars(w) }

  /** The maximal non-blank stretches of s, in order. */
  function Words(s: string): (ws: seq<string>)
    ensures forall i :: 0 <= i < |ws| ==> IsWord(ws[i])
    decreases |s|
  {
    if s == [] then []
    else if IsSpace(s[0]) then Words(s[1..])
    else
      assert |FirstWord(s)| > 0;
      [FirstWord(s)] + Words(s[|FirstWord(s)|..])
  }

  function LowerAll(ws: seq<string>): seq<string> {
    if ws == [] then [] else [Lower(ws[0])] + LowerAll(ws[1..])
  }

  function JoinWords(ws: seq<string>): string {
    if ws == [] then []
    else if |ws| == 1 then ws[0]
    else ws[0] + [' '] + JoinWords(ws[1..])
  }

  // ------------------------------------------------------------ lower-casing

  lemma {:induction false} LowerAt(s: string)
    ensures |Lower(s)| == |s|
    ensures forall i :: 0 <= i < |s| ==> Lower(s)[i] == LowerChar(s[i])
  {
    if s != [] { LowerAt(s[1..]); }
  }

  lemma LowerKeepsSpaces(c: char)
    ensures IsSpace(LowerChar(c)) <==> IsSpace(c)
  {}

  lemma LowerIdempotent(s: string)
    ensures Lower(Lower(s)) == Lower(s)
  {
    LowerAt(s);
    LowerAt(Lower(s));
    assert Lower(Lower(s)) == Lower(s);
  }

  lemma LowerSlice(s: string, lo: nat, hi: nat)
    requires lo <= hi <= |s|
    ensures |Lower(s)| == |s| && Lower(s)[lo..hi] == Lower(s[lo..hi])
  {
    LowerAt(s);
    LowerAt(s[lo..hi]);
  }

  lemma {:induction false} FirstWordLower(s: string)
    ensures FirstWord(Lower(s)) == Lower(FirstWord(s))
    ensures |FirstWord(Lower(s))| == |FirstWord(s)|
  {
    if s == [] {
    } else {
      LowerKeepsSpaces(s[0]);
      assert Lower(s)[1..] == Lower(s[1..]);
      FirstWordLower(s[1..]);
      if !IsSpace(s[0]) {
        assert FirstWord(s)[1..] == FirstWord(s[1..]);
      }
    }
  }

  lemma {:induction false} WordsLower(s: string)
    ensures Words(Lower(s)) == LowerAll(Words(s))
    decreases |s|
  {
    hide IsSpace, FirstWord;
    if s == [] {
    } else if IsSpace(s[0]) {
      LowerKeepsSpaces(s[0]);
      assert Lower(s)[1..] == Lower(s[1..]);
      WordsLower(s[1..]);
    } else {
      LowerKeepsSpaces(s[0]);
      FirstWordLower(s);
      var n := |FirstWord(s)|;
      LowerSlice(s, n, |s|);
      assert Lower(s)[n..|s|] == Lower(s)[n..];
      assert s[n..|s|] == s[n..];
      WordsLower(s[n..]);
    }
  }

  // ----------------------------------------------------------------- trimming

  lemma {:induction false} WordsTrimStart(s: string)
    ensures Words(TrimStart(s)) == Words(s)
  {
    if s != [] && IsSpace(s[0]) { WordsTrimStart(s[1..]); }
  }

  lemma {:induction false} FirstWordAppendSpace(s: string, c: char)
    requires IsSpace(c)
    ensures FirstWord(s + [c]) == FirstWord(s)
  {
    if s != [] {
      assert (s + [c])[1..] == s[1..] + [c];
      FirstWordAppendSpace(s[1..], c);
    }
  }

  lemma {:induction false} WordsAppendSpace(s: string, c: char)
    requires IsSpace(c)
    ensures Words(s + [c]) == Words(s)
    decreases |s|
  {
    if s == [] {
      assert (s + [c])[1..] == [];
    } else if IsSpace(s[0]) {
      assert (s + [c])[1..] == s[1..] + [c];
      WordsAppendSpace(s[1..], c);
    } else {
      FirstWordAppendSpace(s, c);
      var n := |FirstWord(s)|;
      assert (s + [c])[n..] == s[n..] + [c];
      WordsAppendSpace(s[n..], c);
    }
  }

  lemma {:induction false} WordsTrimEnd(s: string)
    ensures Words(TrimEnd(s)) == Words(s)
  {
    if s != [] && IsSpace(s[|s| - 1]) {
      WordsTrimEnd(s[..|s| - 1]);
      assert s == s[..|s| - 1] + [s[|s| - 1]];
      WordsAppendSpace(s[..|s| - 1], s[|s| - 1]);
    }
  }

  predicate Trimmed(s: string) {
    s != [] ==> !IsSpace(s[0]) && !IsSpace(s[|s| - 1])
  }

  lemma {:induction false} TrimEndTrimmed(s: string)
    requires s != [] ==> !IsSpace(s[0])
    ensures Trimmed(TrimEnd(s))
  {
    if s != [] && IsSpace(s[|s| - 1]) { TrimEndTrimmed(s[..|s| - 1]); }
  }

  lemma {:induction false} TrimStartLeads(s: string)
    ensures TrimStart(s) != [] ==> !IsSpace(TrimStart(s)[0])
  {
    if s != [] && IsSpace(s[0]) { TrimStartLeads(s[1..]); }
  }

  lemma TrimSpec(s: string)
    ensures Trimmed(Trim(s)) && Words(Trim(s)) == Words(s)
  {
    TrimStartLeads(s);
    TrimEndTrimmed(TrimStart(s));
    WordsTrimStart(s);
    WordsTrimEnd(TrimStart(s));
  }

  lemma TrimOfTrimmed(s: string)
    requires Trimmed(s)
    ensures Trim(s) == s
  {}

  // --------------------------------------------------------------- collapsing

  lemma {:induction false} CollapseWord(w: string, t: string)
    requires IsWordChars(w)
    ensures Collapse(w + t) == w + Collapse(t)
  {
    if w == [] {
      assert w + t == t;
    } else {
      assert (w + t)[1..] == w[1..] + t;
      CollapseWord(w[1..], t);
    }
  }

  lemma WordsSplit(s: string)
    requires s != [] && !IsSpace(s[0])
    ensures var w, t := FirstWord(s), s[|FirstWord(s)|..];
            IsWord(w) && s == w + t && Words(s) == [w] + Words(TrimStart(t))
  {
    hide IsSpace, TrimStart, FirstWord, Words;
    WordsFirst(s);
    WordsTrimStart(s[|FirstWord(s)|..]);
  }

  lemma WordsFirst(s: string)
    requires s != [] && !IsSpace(s[0])
    ensures FirstWord(s) != [] && Words(s) == [FirstWord(s)] + Words(s[|FirstWord(s)|..])
  {
    assert FirstWord(s)[0] == s[0];
    hide IsSpace, FirstWord;
  }

  lemma WordThenGap(w: string, t: string)
    requires IsWordChars(w) && t != [] && IsSpace(t[0])
    ensures Collapse(w + t) == w + [' '] + Collapse(TrimStart(t))
  {
    CollapseWord(w, t);
    CollapseGap(t);
  }

  /** On a string that starts with a word the runs of blanks separate the words, and
      the last run shows as one trailing blank. */
  lemma {:induction false} CollapseIsJoin(s: string)
    requires s != [] && !IsSpace(s[0])
    ensures Collapse(s) == JoinWords(Words(s)) + LastBlank(s)
    decreases |s|
  {
    WordsSplit(s);
    var w := FirstWord(s);
    var t := s[|w|..];
    if t == [] {
      CollapseWord(w, t);
    } else {
      WordThenGap(w, t);
      TrimStartSuffix(t);
      TrimStartLeads(t);
      var u := TrimStart(t);
      if u != [] {
        CollapseIsJoin(u);
        JoinCons(w, Words(u));
        assert LastBlank(u) == LastBlank(s);
      }
    }
  }

  /** The one blank that a trailing run leaves. */
  function LastBlank(s: string): string
    requires s != []
  {
    if IsSpace(s[|s| - 1]) then [' '] else []
  }

  lemma JoinCons(w: string, ws: seq<string>)
    requires ws != []
    ensures JoinWords([w] + ws) == w + [' '] + JoinWords(ws)
  {
    assert ([w] + ws)[1..] == ws;
  }

  lemma {:induction false} TrimStartSuffix(t: string)
    ensures |TrimStart(t)| <= |t| && TrimStart(t) == t[|t| - |TrimStart(t)|..]
    ensures TrimStart(t) == [] && t != [] ==> IsSpace(t[|t| - 1])
    ensures t != [] && IsSpace(t[0]) ==> |TrimStart(t)| < |t|
    ensures TrimStart(t) != [] ==> Words(t) != []
  {
    if t != [] && IsSpace(t[0]) { TrimStartSuffix(t[1..]); }
  }

  lemma {:induction false} CollapseGap(t: string)
    requires t != [] && IsSpace(t[0])
    ensures Collapse(t) == [' '] + Collapse(TrimStart(t))
  {
    if |t| > 1 && IsSpace(t[1]) { CollapseGap(t[1..]); }
  }

  // ------------------------------------------------- splitting gives words back

  lemma {:induction false} FirstWordOf(w: string, t: string)
    requires IsWordChars(w) && (t != [] ==> IsSpace(t[0]))
    ensures FirstWord(w + t) == w
  {
    if w == [] {
      assert w + t == t;
    } else {
      assert (w + t)[1..] == w[1..] + t;
      FirstWordOf(w[1..], t);
    }
  }

  lemma {:induction false} SplitJoin(ws: seq<string>)
    requires forall i :: 0 <= i < |ws| ==> IsWord(ws[i])
    ensures Words(JoinWords(ws)) == ws
  {
    if ws == [] {
    } else if |ws| == 1 {
      FirstWordOf(ws[0], []);
      assert ws[0] + [] == ws[0];
      assert ws[0][|ws[0]|..] == [];
    } else {
      var rest := JoinWords(ws[1..]);
      var t := [' '] + rest;
      FirstWordOf(ws[0], t);
      assert JoinWords(ws) == ws[0] + t;
      assert (ws[0] + t)[|ws[0]|..] == t;
      assert t[1..] == rest;
      SplitJoin(ws[1..]);
    }
  }

  lemma {:induction false} LowerAllWords(ws: seq<string>)
    requires forall i :: 0 <= i < |ws| ==> IsWord(ws[i])
    ensures |LowerAll(ws)| == |ws|
    ensures forall i :: 0 <= i < |ws| ==> IsWord(LowerAll(ws)[i])
    ensures LowerAll(LowerAll(ws)) == LowerAll(ws)
  {
    if ws != [] {
      LowerAllWords(ws[1..]);
      LowerAt(ws[0]);
      LowerIdempotent(ws[0]);
      forall i | 0 <= i < |ws[0]| ensures !IsSpace(Lower(ws[0])[i]) {
        LowerKeepsSpaces(ws[0][i]);
      }
      var rest := LowerAll(ws[1..]);
      assert LowerAll(ws)[1..] == rest;
    }
  }

  // ------------------------------------------------------------- main results

  /** Trim, lower-case and collapse compute the lower-cased word list joined with
      single blanks. */
  lemma NormaliseIsWordList(m: string)
    ensures NormaliseMessage(m) == JoinWords(LowerAll(Words(m)))
  {
    var t := Trim(m);
    TrimSpec(m);
    WordsLower(t);
    LowerAt(t);
    if t == [] {
    } else {
      LowerKeepsSpaces(t[0]);
      LowerKeepsSpaces(t[|t| - 1]);
      CollapseIsJoin(Lower(t));
    }
  }

  /** Splitting a normalised message gives back the lower-cased words of the message. */
  lemma NormaliseKeepsWords(m: string)
    ensures Words(NormaliseMessage(m)) == LowerAll(Words(m))
  {
    NormaliseIsWordList(m);
    LowerAllWords(Words(m));
    SplitJoin(LowerAll(Words(m)));
  }

  /** Two messages normalise alike exactly when they have the same words up to case. */
  lemma NormaliseEquivalence(a: string, b: string)
    ensures NormaliseMessage(a) == NormaliseMessage(b) <==> LowerAll(Words(a)) == LowerAll(Words(b))
  {
    NormaliseIsWordList(a);
    NormaliseIsWordList(b);
    NormaliseKeepsWords(a);
    NormaliseKeepsWords(b);
  }

  lemma NormaliseIdempotent(m: string)
    ensures NormaliseMessage(NormaliseMessage(m)) == NormaliseMessage(m)
  {
    NormaliseKeepsWords(m);
    NormaliseIsWordList(m);
    NormaliseIsWordList(NormaliseMessage(m));
    LowerAllWords(Words(m));
  }

  // ------------------------------------------------------------------- scans

  lemma {:induction false} TrimStartSkips(s: string, k: nat)
    requires k <= |s| && forall i :: 0 <= i < k ==> IsSpace(s[i])
    ensures TrimStart(s) == TrimStart(s[k..])
  {
    if k > 0 { TrimStartSkips(s[1..], k - 1); }
  }

  lemma {:induction false} TrimEndSkips(s: string, k: nat)
    requires k <= |s| && forall i :: k <= i < |s| ==> IsSpace(s[i])
    ensures TrimEnd(s) == TrimEnd(s[..k])
  {
    if k < |s| {
      TrimEndSkips(s[..|s| - 1], k);
      assert s[..|s| - 1][..k] == s[..k];
    } else {
      assert s[..k] == s;
    }
  }

  /** Moves two ends inwards over white space. */
  method TrimScan(s: string) returns (r: string)
    ensures r == Trim(s)
  {
    var lo := 0;
    while lo < |s| && IsSpace(s[lo])
      invariant lo <= |s|
      invariant forall i :: 0 <= i < lo ==> IsSpace(s[i])
    {
      lo := lo + 1;
    }
    var hi := |s|;
    while lo < hi && IsSpace(s[hi - 1])
      invariant lo <= hi <= |s|
      invariant forall i :: hi <= i < |s| ==> IsSpace(s[i])
    {
      hi := hi - 1;
    }
    r := s[lo..hi];
    TrimStartSkips(s, lo);
    assert TrimStart(s[lo..]) == s[lo..];
    TrimEndSkips(s[lo..], hi - lo);
    assert s[lo..][..hi - lo] == r;
  }

  method LowerScan(s: string) returns (r: string)
    ensures r == Lower(s)
  {
    r := [];
    for i := 0 to |s|
      invariant r + Lower(s[i..]) == Lower(s)
    {
      assert s[i..][1..] == s[i + 1..];
      r := r + [LowerChar(s[i])];
    }
  }

  /** What is left to emit, when the character before s was white space or not. */
  function Pending(inRun: bool, s: string): string {
    if inRun then Collapse(TrimStart(s)) else Collapse(s)
  }

  lemma PendingStep(inRun: bool, s: string)
    requires s != []
    ensures IsSpace(s[0]) ==>
              Pending(inRun, s) == (if inRun then [] else [' ']) + Pending(true, s[1..])
    ensures !IsSpace(s[0]) ==> Pending(inRun, s) == [s[0]] + Pending(false, s[1..])
  {
    if IsSpace(s[0]) { CollapseGap(s); }
  }

  lemma PendingEnds(s: string)
    ensures Pending(false, s) == Collapse(s) && Pending(false, []) == [] && Pending(true, []) == []
  {}

  /** One pass with a flag that says whether the previous character was a blank. */
  method CollapseScan(s: string) returns (r: string)
    ensures r == Collapse(s)
  {
    hide Collapse, TrimStart, IsSpace, Pending;
    r := [];
    var inRun := false;
    PendingEnds(s);
    assert s[0..] == s;
    for i := 0 to |s|
      invariant r + Pending(inRun, s[i..]) == Collapse(s)
    {
      PendingStep(inRun, s[i..]);
      assert s[i..][1..] == s[i + 1..];
      if IsSpace(s[i]) {
        if !inRun { r := r + [' ']; }
        inRun := true;
      } else {
        r := r + [s[i]];
        inRun := false;
      }
    }
    assert s[|s|..] == [];
  }

  method DigitsScan(s: string) returns (r: string)
    ensures r == Digits(s)
  {
    r := [];
    for i := 0 to |s|
      invariant r + Digits(s[i..]) == Digits(s)
    {
      assert s[i..][1..] == s[i + 1..];
      if IsDigit(s[i]) { r := r + [s[i]]; }
    }
  }

  lemma {:induction false} DigitsOnly(s: string)
    ensures forall i :: 0 <= i < |Digits(s)| ==> IsDigit(Digits(s)[i])
  {
    if s != [] { DigitsOnly(s[1..]); }
  }
}
