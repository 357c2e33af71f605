/** The modifier bitmask (`MOD_CONSTANTS`) and its two-letter string form.

    A mask is modelled by the set of positions of its set bits: the number
    `1 << p` belongs to the mask exactly when `p` is in the set, so `mods & HD`
    is non-zero exactly when `HD in mods`. */
module Mods {

  type Mask = set<nat>

  // Bit positions of the ten defined modifiers.
  const NF: nat := 0      // no fail
  const EZ: nat := 1      // easy
  const TD: nat := 2      // touch device
  const HD: nat := 3      // hidden
  const HR: nat := 4      // hard rock
  const DT: nat := 6      // double time
  const HT: nat := 8      // half time
  const NC: nat := 9      // nightcore
  const FL: nat := 10     // flashlight
  const SO: nat := 12     // spun out

  const NoMod: Mask := {}
  const SpeedChanging: Mask := {DT, HT, NC}
  const MapChanging: Mask := {HR, EZ} + SpeedChanging
  const Defined: Mask := {NF, EZ, TD, HD, HR, DT, HT, NC, FL, SO}

  const NumCodes: nat := 10

  /** The two-letter codes, in the order the property names of
      `MOD_CONSTANTS` are enumerated. */
  function Code(k: nat): (c: string)
    requires k < NumCodes
    ensures |c| == 2
  {
    match k
    case 0 => "nf" case 1 => "ez" case 2 => "td" case 3 => "hd" case 4 => "hr"
    case 5 => "dt" case 6 => "ht" case 7 => "nc" case 8 => "fl" case _ => "so"
  }

  /** The bit of the `k`-th code. */
  function Bit(k: nat): nat
    requires k < NumCodes
  {
    match k
    case 0 => NF case 1 => EZ case 2 => TD case 3 => HD case 4 => HR
    case 5 => DT case 6 => HT case 7 => NC case 8 => FL case _ => SO
  }

  function LowerChar(c: char): char
  {
    if 'A' <= c <= 'Z' then (c as int + 32) as char else c
  }

  function UpperChar(c: char): char
  {
    if 'a' <= c <= 'z' then (c as int - 32) as char else c
  }

  /** `toLowerCase`, on ASCII letters. */
  function Lower(s: string): (r: string)
    ensures |r| == |s|
    ensures forall i :: 0 <= i < |s| ==> r[i] == LowerChar(s[i])
  {
    seq(|s|, i requires 0 <= i < |s| => LowerChar(s[i]))
  }

  /** `toUpperCase`, on ASCII letters. */
  function Upper(s: string): (r: string)
    ensures |r| == |s|
    ensures forall i :: 0 <= i < |s| ==> r[i] == UpperChar(s[i])
  {
    seq(|s|, i requires 0 <= i < |s| => UpperChar(s[i]))
  }

  /** `s.indexOf(code) >= 0` for a two-letter code. */
  predicate Contains(s: string, code: string)
    requires |code| == 2
  {
    exists i :: 0 <= i < |s| - 1 && s[i] == code[0] && s[i + 1] == code[1]
  }

  /** The bits of the codes among the first `n` that occur in `s`. */
  function Found(s: string, n: nat): Mask
    requires n <= NumCodes
  {
    set k | 0 <= k < n && Contains(s, Code(k)) :: Bit(k)
  }

  /** The mask `from_string` returns for `str`. */
  function MaskOf(str: string): Mask
  {
    Found(Lower(str), NumCodes)
  }

  /** The string `string` has built after looking at the first `n` codes. */
  function Emit(mods: Mask, n: nat): string
    requires n <= NumCodes
  {
    if n == 0 then []
    else Emit(mods, n - 1) + (if Bit(n - 1) in mods then Upper(Code(n - 1)) else [])
  }

  /** `MOD_CONSTANTS.from_string`: lower-cases the input and sets the bit of
      every code that occurs in it, so that the result holds exactly the
      defined modifiers whose code occurs, in either case, in `str`. */
  method FromString(str: string) returns (mask: Mask)
    ensures mask == MaskOf(str)
    ensures mask <= Defined
    ensures forall k :: 0 <= k < NumCodes ==> (Bit(k) in mask <==> Contains(Lower(str), Code(k)))
  {
    mask := {};
    var s := Lower(str);
    for k := 0 to NumCodes
      invariant mask == Found(s, k)
    {
      if Contains(s, Code(k)) {
        mask := mask + {Bit(k)};
      }
      FoundStep(s, k);
    }
    FoundBits(s);
  }

  /** `MOD_CONSTANTS.string`: the upper-case codes of the set bits, in
      enumeration order. */
  method ToString(mods: Mask) returns (res: string)
    ensures res == Emit(mods, NumCodes)
    ensures |res| % 2 == 0 && |res| <= 2 * NumCodes
  {
    res := [];
    for k := 0 to NumCodes
      invariant res == Emit(mods, k)
    {
      if Bit(k) in mods {
        res := res + Upper(Code(k));
      }
    }
    EmitLength(mods, NumCodes);
  }

  lemma BitInjective(j: nat, k: nat)
    requires j < NumCodes && k < NumCodes && j != k
    ensures Bit(j) != Bit(k) && Code(j) != Code(k)
  {
  }

  lemma DefinedBits(x: nat)
    ensures x in Defined <==> exists k :: 0 <= k < NumCodes && Bit(k) == x
  {
    if x in Defined {
      var k := if x == NF then 0 else if x == EZ then 1 else if x == TD then 2
        else if x == HD then 3 else if x == HR then 4 else if x == DT then 5
        else if x == HT then 6 else if x == NC then 7 else if x == FL then 8 else 9;
      assert Bit(k) == x;
    }
  }

  lemma FoundStep(s: string, k: nat)
    requires k < NumCodes
    ensures Found(s, k + 1) == Found(s, k) + (if Contains(s, Code(k)) then {Bit(k)} else {})
  {
  }

  /** The bits `from_string` sets are exactly those whose code occurs. */
  lemma FoundBits(s: string)
    ensures Found(s, NumCodes) <= Defined
    ensures forall k :: 0 <= k < NumCodes ==> (Bit(k) in Found(s, NumCodes) <==> Contains(s, Code(k)))
  {
    forall x | x in Found(s, NumCodes) ensures x in Defined {
      DefinedBits(x);
    }
    forall k | 0 <= k < NumCodes
      ensures Bit(k) in Found(s, NumCodes) ==> Contains(s, Code(k))
    {
      if Bit(k) in Found(s, NumCodes) {
        var j :| 0 <= j < NumCodes && Contains(s, Code(j)) && Bit(j) == Bit(k);
        if j != k {
          BitInjective(j, k);
        }
      }
    }
  }

  lemma {:induction false} EmitLength(mods: Mask, n: nat)
    requires n <= NumCodes
    ensures |Emit(mods, n)| % 2 == 0 && |Emit(mods, n)| <= 2 * n
  {
    if n > 0 {
      EmitLength(mods, n - 1);
    }
  }

  /** The lower-case counterpart of `Emit`. */
  function LowerEmit(mods: Mask, n: nat): string
    requires n <= NumCodes
  {
    if n == 0 then []
    else LowerEmit(mods, n - 1) + (if Bit(n - 1) in mods then Code(n - 1) else [])
  }

  lemma LowerUpperCode(k: nat)
    requires k < NumCodes
    ensures Lower(Upper(Code(k))) == Code(k)
  {
    if k == 0 {} else if k == 1 {} else if k == 2 {} else if k == 3 {} else if k == 4 {}
    else if k == 5 {} else if k == 6 {} else if k == 7 {} else if k == 8 {} else {}
  }

  lemma LowerConcat(a: string, b: string)
    ensures Lower(a + b) == Lower(a) + Lower(b)
  {
  }

  lemma {:induction false} LowerOfEmit(mods: Mask, n: nat)
    requires n <= NumCodes
    ensures Lower(Emit(mods, n)) == LowerEmit(mods, n)
  {
    if n > 0 {
      LowerOfEmit(mods, n - 1);
      var tail := if Bit(n - 1) in mods then Upper(Code(n - 1)) else [];
      LowerConcat(Emit(mods, n - 1), tail);
      if Bit(n - 1) in mods {
        LowerUpperCode(n - 1);
      } else {
        assert Lower(tail) == [];
      }
    }
  }

  lemma ContainsConcat(a: string, b: string, code: string)
    requires |code| == 2
    ensures Contains(a + b, code) <==>
      || Contains(a, code)
      || Contains(b, code)
      || (|a| > 0 && |b| > 0 && a[|a| - 1] == code[0] && b[0] == code[1])
  {
    var ab := a + b;
    if Contains(ab, code) {
      var i :| 0 <= i < |ab| - 1 && ab[i] == code[0] && ab[i + 1] == code[1];
      if i < |a| - 1 {
        assert a[i] == code[0] && a[i + 1] == code[1];
      } else if i >= |a| {
        assert b[i - |a|] == code[0] && b[i - |a| + 1] == code[1];
      }
    }
    if Contains(a, code) {
      var i :| 0 <= i < |a| - 1 && a[i] == code[0] && a[i + 1] == code[1];
      assert ab[i] == code[0] && ab[i + 1] == code[1];
    }
    if Contains(b, code) {
      var i :| 0 <= i < |b| - 1 && b[i] == code[0] && b[i + 1] == code[1];
      assert ab[|a| + i] == code[0] && ab[|a| + i + 1] == code[1];
    }
    if |a| > 0 && |b| > 0 && a[|a| - 1] == code[0] && b[0] == code[1] {
      assert ab[|a| - 1] == code[0] && ab[|a|] == code[1];
    }
  }

  /** A code's second letter followed by a later code's first letter is
      never a code: concatenating codes in enumeration order creates no
      spurious code across a boundary. */
  lemma NoCrossing(i: nat, j: nat, c: nat)
    requires i < j < NumCodes && c < NumCodes
    ensures !(Code(i)[1] == Code(c)[0] && Code(j)[0] == Code(c)[1])
  {
    if c == 0 {} else if c == 1 {} else if c == 2 {} else if c == 3 {} else if c == 4 {}
    else if c == 5 {} else if c == 6 {} else if c == 7 {} else if c == 8 {} else {}
  }

  lemma {:induction false} LowerEmitLast(mods: Mask, n: nat)
    requires n <= NumCodes
    ensures |LowerEmit(mods, n)| > 0 ==>
      exists i :: 0 <= i < n && LowerEmit(mods, n)[|LowerEmit(mods, n)| - 1] == Code(i)[1]
  {
    if n > 0 {
      LowerEmitLast(mods, n - 1);
      if Bit(n - 1) in mods {
        var e := LowerEmit(mods, n);
        assert e[|e| - 1] == Code(n - 1)[1];
      } else {
        assert LowerEmit(mods, n) == LowerEmit(mods, n - 1);
      }
    }
  }

  lemma ContainsCode(j: nat, c: nat)
    requires j < NumCodes && c < NumCodes
    ensures Contains(Code(j), Code(c)) <==> j == c
  {
    if j != c {
      BitInjective(j, c);
      assert Code(j)[0] != Code(c)[0] || Code(j)[1] != Code(c)[1];
    } else {
      assert Code(j)[0] == Code(c)[0] && Code(j)[1] == Code(c)[1];
    }
  }

  /** The printed codes contain a code exactly when its bit is set. */
  lemma {:induction false} LowerEmitContains(mods: Mask, n: nat, c: nat)
    requires n <= NumCodes && c < NumCodes
    ensures Contains(LowerEmit(mods, n), Code(c)) <==> c < n && Bit(c) in mods
  {
    if n > 0 {
      LowerEmitContains(mods, n - 1, c);
      var a := LowerEmit(mods, n - 1);
      if Bit(n - 1) in mods {
        var b := Code(n - 1);
        ContainsConcat(a, b, Code(c));
        ContainsCode(n - 1, c);
        if |a| > 0 && a[|a| - 1] == Code(c)[0] && b[0] == Code(c)[1] {
          LowerEmitLast(mods, n - 1);
          var i :| 0 <= i < n - 1 && a[|a| - 1] == Code(i)[1];
          NoCrossing(i, n - 1, c);
        }
        if c == n - 1 {
          assert Contains(b, Code(c));
        }
      } else {
        assert LowerEmit(mods, n) == a;
      }
    }
  }

  /** Round trip: parsing the printed form of a mask gives back the mask
      restricted to the defined modifiers. */
  lemma RoundTrip(mods: Mask)
    ensures MaskOf(Emit(mods, NumCodes)) == mods * Defined
  {
    var s := Lower(Emit(mods, NumCodes));
    LowerOfEmit(mods, NumCodes);
    FoundBits(s);
    forall x | x in mods * Defined ensures x in Found(s, NumCodes) {
      DefinedBits(x);
      var k :| 0 <= k < NumCodes && Bit(k) == x;
      LowerEmitContains(mods, NumCodes, k);
    }
    forall x | x in Found(s, NumCodes) ensures x in mods {
      var k :| 0 <= k < NumCodes && Contains(s, Code(k)) && Bit(k) == x;
      LowerEmitContains(mods, NumCodes, k);
    }
  }

  /** Printing is canonical: a parsed printed mask prints the same way. */
  lemma {:induction false} PrintIsCanonical(mods: Mask, n: nat)
    requires n <= NumCodes
    ensures Emit(mods * Defined, n) == Emit(mods, n)
  {
    if n > 0 {
      PrintIsCanonical(mods, n - 1);
      DefinedBits(Bit(n - 1));
    }
  }

  /** Parsing ignores case. */
  lemma CaseInsensitive(s: string)
    ensures MaskOf(Upper(s)) == MaskOf(s)
  {
    assert Lower(Upper(s)) == Lower(s);
  }

  /** The substring search over-matches: "HDTD" also contains "dt". */
  lemma OverMatch()
    ensures MaskOf("HDTD") == {HD, TD, DT}
  {
    var s := Lower("HDTD");
    assert s == "hdtd";
    FoundBits(s);
    assert Contains(s, Code(3)) by { assert s[0] == 'h' && s[1] == 'd'; }
    assert Contains(s, Code(5)) by { assert s[1] == 'd' && s[2] == 't'; }
    assert Contains(s, Code(2)) by { assert s[2] == 't' && s[3] == 'd'; }
    assert {HD, TD, DT} <= Found(s, NumCodes);
    forall x | x in Found(s, NumCodes) ensures x in {HD, TD, DT} {
      var k :| 0 <= k < NumCodes && Contains(s, Code(k)) && Bit(k) == x;
      OnlyCodesOfHdtd(s, k);
    }
  }

  /** The codes occurring in "hdtd" are those at its three positions. */
  lemma OnlyCodesOfHdtd(s: string, k: nat)
    requires s == "hdtd" && k < NumCodes && Contains(s, Code(k))
    ensures Bit(k) in {HD, TD, DT}
  {
    var i :| 0 <= i < |s| - 1 && s[i] == Code(k)[0] && s[i + 1] == Code(k)[1];
    var j := if i == 0 then 3 else if i == 1 then 5 else 2;
    assert Code(k)[0] == Code(j)[0] && Code(k)[1] == Code(j)[1];
    SameLetters(k, j);
  }

  lemma SameLetters(k: nat, j: nat)
    requires k < NumCodes && j < NumCodes
    requires Code(k)[0] == Code(j)[0] && Code(k)[1] == Code(j)[1]
    ensures k == j
  {
    ContainsCode(k, j);
    assert Code(k)[0] == Code(j)[0] && Code(k)[1] == Code(j)[1];
  }
}
