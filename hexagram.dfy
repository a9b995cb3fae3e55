/** The nine hexagram operators of the deck and their catalogue order.

    A hexagram code is a string of six characters; index 0 is the bottom
    line, index 5 the top line, and '1' is a yang (solid) line.  Indices 0..2
    form the lower trigram and 3..5 the upper trigram.  Every operator is a
    pure string transform on such a code. */
module Hexagram {

  type Code = s: seq<char> | |s| == 6 witness "000000"

  /** Every line is a yin ('0') or yang ('1') character. */
  predicate IsBinary(s: seq<char>) {
    forall k :: 0 <= k < |s| ==> s[k] == '0' || s[k] == '1'
  }

  /** Every line of `s` is one of the characters in `S`. */
  predicate Over(s: seq<char>, S: set<char>) {
    forall k :: 0 <= k < |s| ==> s[k] in S
  }

  /** `s[::-1]` */
  function Reverse(s: seq<char>): (r: seq<char>)
    ensures |r| == |s|
    ensures forall k :: 0 <= k < |s| ==> r[k] == s[|s| - 1 - k]
  {
    if s == [] then [] else Reverse(s[1..]) + [s[0]]
  }

  /** One line turned over: '1' becomes '0', anything else becomes '1'. */
  function InvertLine(c: char): char {
    if c == '1' then '0' else '1'
  }

  /** `"".join("0" if c == "1" else "1" for c in s)` */
  function Complement(s: seq<char>): (r: seq<char>)
    ensures |r| == |s| && IsBinary(r)
    ensures forall k :: 0 <= k < |s| ==> (r[k] == '1' <==> s[k] != '1')
  {
    seq(|s|, k requires 0 <= k < |s| => InvertLine(s[k]))
  }

  // ---------------------------------------------------------------------
  // The operators, named as on their cards.

  /** SHIFT: every line moves up one place and the top line falls to the bottom. */
  function Shift(h: Code): (r: Code)
    ensures r[0] == h[5]
    ensures forall k :: 1 <= k < 6 ==> r[k] == h[k - 1]
  {
    [h[5]] + h[..5]
  }

  /** FLIP: the line order of the whole hexagram is reversed. */
  function Flip(h: Code): (r: Code)
    ensures forall k :: 0 <= k < 6 ==> r[k] == h[5 - k]
  {
    Reverse(h)
  }

  /** SWAP: the lower and upper trigrams change places. */
  function Swap(h: Code): (r: Code)
    ensures r[..3] == h[3..] && r[3..] == h[..3]
  {
    h[3..] + h[..3]
  }

  /** UNHIDE: lines 1..3 become the new lower trigram, lines 2..4 the new upper one. */
  function Unhide(h: Code): (r: Code)
    ensures r[..3] == h[1..4] && r[3..] == h[2..5]
  {
    h[1..4] + h[2..5]
  }

  /** INVERT: every line changes between yin and yang. */
  function Invert(h: Code): (r: Code)
    ensures IsBinary(r)
    ensures forall k :: 0 <= k < 6 ==> (r[k] == '1' <==> h[k] != '1')
  {
    Complement(h)
  }

  /** INVERT ▼: only the lines of the lower trigram change. */
  function InvertLower(h: Code): (r: Code)
    ensures r[..3] == Complement(h[..3]) && r[3..] == h[3..]
  {
    Complement(h[..3]) + h[3..]
  }

  /** FLIP ▼: the lower trigram is reversed in place. */
  function FlipLower(h: Code): (r: Code)
    ensures r[0] == h[2] && r[1] == h[1] && r[2] == h[0] && r[3..] == h[3..]
  {
    Reverse(h[..3]) + h[3..]
  }

  /** MIRROR ▲: the upper trigram becomes the lower trigram read backwards. */
  function MirrorUpper(h: Code): (r: Code)
    ensures r[..3] == h[..3]
    ensures r[3] == h[2] && r[4] == h[1] && r[5] == h[0]
  {
    h[..3] + Reverse(h[..3])
  }

  /** COPY ▲: the upper trigram becomes a copy of the lower trigram. */
  function CopyUpper(h: Code): (r: Code)
    ensures r[..3] == h[..3] && r[3..] == h[..3]
  {
    h[..3] + h[..3]
  }

  // ---------------------------------------------------------------------
  // The catalogue: nine operators in button order.

  const OperatorCount: nat := 9

  type OpIndex = i: nat | i < 9

  /** The "short" label of each catalogue entry. */
  function ShortName(i: OpIndex): string {
    match i
    case 0 => "SHIFT"
    case 1 => "FLIP"
    case 2 => "SWAP"
    case 3 => "UNHIDE"
    case 4 => "INVERT"
    case 5 => "INVERT ▼"
    case 6 => "FLIP ▼"
    case 7 => "MIRROR ▲"
    case 8 => "COPY ▲"
  }

  /** The "func" of each catalogue entry. */
  function Apply(i: OpIndex, h: Code): Code {
    match i
    case 0 => Shift(h)
    case 1 => Flip(h)
    case 2 => Swap(h)
    case 3 => Unhide(h)
    case 4 => Invert(h)
    case 5 => InvertLower(h)
    case 6 => FlipLower(h)
    case 7 => MirrorUpper(h)
    case 8 => CopyUpper(h)
  }

  /** The labels of the operators every run starts with. */
  const FreebieShorts: set<string> := {"SHIFT", "INVERT ▼", "MIRROR ▲"}

  /** `[t["short"] in FREEBIE_SHORTS for t in TRANSFORMATIONS]`: the unlock flags
      at the start of a run; exactly SHIFT, INVERT ▼ and MIRROR ▲ are free. */
  function InitialUnlocks(): (r: seq<bool>)
    ensures |r| == OperatorCount
    ensures forall i :: 0 <= i < |r| ==> (r[i] <==> i == 0 || i == 5 || i == 7)
  {
    var r := seq(9, i requires 0 <= i < 9 => ShortName(i) in FreebieShorts);
    assert ShortName(1) != "SHIFT" && ShortName(2) != "SHIFT" && ShortName(8) != "SHIFT";
    r
  }

  // ---------------------------------------------------------------------
  // Properties of the operators.

  /** Every operator maps a 0/1 code to a 0/1 code. */
  lemma ApplyPreservesBinary(i: OpIndex, h: Code)
    requires IsBinary(h)
    ensures IsBinary(Apply(i, h))
  {
    var r := Apply(i, h);
    forall k | 0 <= k < 6 ensures r[k] == '0' || r[k] == '1' {
      match i
      case 0 => if k > 0 { assert r[k] == h[k - 1]; }
      case 1 => assert r[k] == h[5 - k];
      case 2 => if k < 3 { assert r[k] == r[..3][k] == h[3..][k]; } else { assert r[k] == r[3..][k - 3] == h[..3][k - 3]; }
      case 3 => if k < 3 { assert r[k] == r[..3][k] == h[1..4][k]; } else { assert r[k] == r[3..][k - 3] == h[2..5][k - 3]; }
      case 4 =>
      case 5 => if k < 3 { assert r[k] == r[..3][k]; } else { assert r[k] == r[3..][k - 3] == h[3..][k - 3]; }
      case 6 => if k >= 3 { assert r[k] == r[3..][k - 3] == h[3..][k - 3]; }
      case 7 => if k < 3 { assert r[k] == r[..3][k] == h[..3][k]; }
      case 8 => if k < 3 { assert r[k] == r[..3][k] == h[..3][k]; } else { assert r[k] == r[3..][k - 3] == h[..3][k - 3]; }
    }
  }

  /** An operator only moves lines around or writes '0' and '1', so it never
      leaves an alphabet that holds both. */
  lemma ApplyStaysOver(i: OpIndex, h: Code, S: set<char>)
    requires '0' in S && '1' in S && Over(h, S)
    ensures Over(Apply(i, h), S)
  {
    var r := Apply(i, h);
    forall k | 0 <= k < 6 ensures r[k] in S {
      match i
      case 0 => if k > 0 { assert r[k] == h[k - 1]; }
      case 1 => assert r[k] == h[5 - k];
      case 2 => if k < 3 { assert r[k] == r[..3][k] == h[3..][k]; } else { assert r[k] == r[3..][k - 3] == h[..3][k - 3]; }
      case 3 => if k < 3 { assert r[k] == r[..3][k] == h[1..4][k]; } else { assert r[k] == r[3..][k - 3] == h[2..5][k - 3]; }
      case 4 => assert r[k] == '0' || r[k] == '1';
      case 5 => if k < 3 { assert r[k] == r[..3][k] == Complement(h[..3])[k]; } else { assert r[k] == r[3..][k - 3] == h[3..][k - 3]; }
      case 6 => if k >= 3 { assert r[k] == r[3..][k - 3] == h[3..][k - 3]; }
      case 7 => if k < 3 { assert r[k] == r[..3][k] == h[..3][k]; }
      case 8 => if k < 3 { assert r[k] == r[..3][k] == h[..3][k]; } else { assert r[k] == r[3..][k - 3] == h[..3][k - 3]; }
    }
  }

  lemma FlipIsSelfInverse(h: Code)
    ensures Flip(Flip(h)) == h
  {
    var r := Flip(Flip(h));
    forall k | 0 <= k < 6 ensures r[k] == h[k] {
      assert r[k] == Flip(h)[5 - k];
    }
  }

  lemma SwapIsSelfInverse(h: Code)
    ensures Swap(Swap(h)) == h
  {
    var s := Swap(h);
    var r := Swap(s);
    assert r == r[..3] + r[3..];
    assert h == h[..3] + h[3..];
  }

  lemma InvertIsSelfInverse(h: Code)
    requires IsBinary(h)
    ensures Invert(Invert(h)) == h
  {
    var r := Invert(Invert(h));
    forall k | 0 <= k < 6 ensures r[k] == h[k] {
      assert (r[k] == '1') <==> (Invert(h)[k] != '1');
      assert (Invert(h)[k] == '1') <==> (h[k] != '1');
    }
  }

  lemma InvertLowerIsSelfInverse(h: Code)
    requires IsBinary(h)
    ensures InvertLower(InvertLower(h)) == h
  {
    var s := InvertLower(h);
    var r := InvertLower(s);
    forall k | 0 <= k < 6 ensures r[k] == h[k] {
      if k < 3 {
        assert r[k] == r[..3][k] == Complement(s[..3])[k];
        assert s[k] == s[..3][k] == Complement(h[..3])[k];
      } else {
        assert r[k] == r[3..][k - 3] == s[3..][k - 3] == h[3..][k - 3];
      }
    }
  }

  lemma FlipLowerIsSelfInverse(h: Code)
    ensures FlipLower(FlipLower(h)) == h
  {
    var s := FlipLower(h);
    var r := FlipLower(s);
    assert r[3..] == h[3..];
    assert r == r[..3] + r[3..];
    assert h == h[..3] + h[3..];
  }

  lemma MirrorUpperIsIdempotent(h: Code)
    ensures MirrorUpper(MirrorUpper(h)) == MirrorUpper(h)
  {
    var s := MirrorUpper(h);
    assert s[..3] == h[..3];
  }

  lemma CopyUpperIsIdempotent(h: Code)
    ensures CopyUpper(CopyUpper(h)) == CopyUpper(h)
  {
    var s := CopyUpper(h);
    assert s[..3] == h[..3];
  }

  /** `n` applications of SHIFT. */
  function ShiftTimes(h: Code, n: nat): Code
    decreases n
  {
    if n == 0 then h else Shift(ShiftTimes(h, n - 1))
  }

  /** After n <= 6 SHIFTs the top n lines have rotated to the bottom. */
  lemma {:induction false} ShiftTimesRotates(h: Code, n: nat)
    requires n <= 6
    ensures ShiftTimes(h, n) == h[6 - n..] + h[..6 - n]
  {
    if n == 0 {
      assert h[6..] + h[..6] == h;
    } else {
      ShiftTimesRotates(h, n - 1);
      var p := ShiftTimes(h, n - 1);
      assert p == h[7 - n..] + h[..7 - n];
      assert p[5] == h[6 - n];
      assert p[..5] == h[7 - n..] + h[..6 - n];
      assert h[6 - n..] == [h[6 - n]] + h[7 - n..];
    }
  }

  /** Six SHIFTs bring every line back to its place. */
  lemma ShiftSixIsIdentity(h: Code)
    ensures ShiftTimes(h, 6) == h
  {
    ShiftTimesRotates(h, 6);
    assert h[0..] + h[..0] == h;
  }

  /** SHIFT, UNHIDE and COPY ▲ are not self-inverse (witnessed). */
  lemma SomeOperatorsAreNotInvolutions()
    ensures Shift(Shift("100000")) != "100000"
    ensures Unhide(Unhide("000001")) != "000001"
    ensures CopyUpper(CopyUpper("000111")) != "000111"
  {
    assert Shift(Shift("100000"))[2] == '1';
    var u := Unhide("000001");
    assert "000001"[2..5] == "000";
    assert u[4] == u[3..][1] == '0';
    assert Unhide(u)[5] == Unhide(u)[3..][2] == u[2..5][2] == u[4];
    assert CopyUpper(CopyUpper("000111"))[5] == '0';
  }
}
