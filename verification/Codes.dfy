// Unique codes: numbered variants of a base until one is free.
module Codes {
  import opened Text
  import opened Sets

  const CODE_LENGTH := 120

  // Python's s[:k]: a negative bound counts from the end.
  function Slice(s: string, k: int): (r: string)
    ensures |r| <= |s| && (k >= 0 ==> |r| <= k)
  {
    if k >= |s| then s
    else if k >= 0 then s[..k]
    else if |s| + k > 0 then s[..|s| + k]
    else ""
  }

  function Tail(n: nat): string { "-" + Dec(n) }

  // The n-th variant of a playlist or channel code.
  function Variant(base: string, n: nat): string { Slice(base, CODE_LENGTH - |Tail(n)|) + Tail(n) }

  // The n-th variant of a site or zone code.
  function ResourceVariant(base: string, n: nat): string { Slice(base, 44) + Tail(n) }

  // A variant is the base, a dash and the number, with as much of the base cut off as a length of
  // 120 asks for.
  lemma VariantIs(base: string, n: nat)
    requires |Dec(n)| < 120
    ensures |base| + 1 + |Dec(n)| <= 120 ==> Variant(base, n) == base + "-" + Dec(n)
    ensures |base| + 1 + |Dec(n)| > 120 ==>
      Variant(base, n) == base[..119 - |Dec(n)|] + "-" + Dec(n) && |Variant(base, n)| == 120
    ensures Number(Dec(n)) == n
  {
    NumberDec(n);
  }

  // Of a site or zone code, the first 44 characters stay.
  lemma ResourceVariantIs(base: string, n: nat)
    ensures ResourceVariant(base, n) == (if |base| <= 44 then base else base[..44]) + "-" + Dec(n)
  {
  }

  function Variants(base: string): nat -> string { (n: nat) => Variant(base, n) }

  function ResourceVariants(base: string): nat -> string { (n: nat) => ResourceVariant(base, n) }

  // However the base is cut, the number can be read back: it follows the last dash.
  lemma TailDecides(a: string, m: nat, b: string, n: nat)
    requires a + Tail(m) == b + Tail(n)
    ensures m == n
  {
    var x, y := a + Tail(m), b + Tail(n);
    DashPosition(a, m, b, n);
    DashPosition(b, n, a, m);
    assert Dec(m) == x[|x| - |Dec(m)|..] == y[|y| - |Dec(n)|..] == Dec(n);
    DecInjective(m, n);
  }

  lemma DashPosition(a: string, m: nat, b: string, n: nat)
    requires a + Tail(m) == b + Tail(n)
    ensures |Dec(m)| >= |Dec(n)|
  {
    var x := b + Tail(n);
    forall k | |b| < k < |x| ensures IsDigit(x[k]) {
      assert x[k] == Dec(n)[k - |b| - 1];
    }
    assert x[|a|] == (a + Tail(m))[|a|] == '-';
  }

  // The numbers tried and found taken are few enough: their variants are all different.
  ghost function Tried(variant: nat -> string, to: nat): set<string> {
    set n | 2 <= n < to :: variant(n)
  }

  ghost predicate AllDifferent(variant: nat -> string) {
    forall m: nat, n: nat :: variant(m) == variant(n) ==> m == n
  }

  lemma {:induction false} TriedSize(variant: nat -> string, to: nat)
    requires AllDifferent(variant) && to >= 2
    ensures |Tried(variant, to)| == to - 2
  {
    if to > 2 {
      TriedSize(variant, to - 1);
      assert Tried(variant, to) == Tried(variant, to - 1) + {variant(to - 1)};
    }
  }

  // With every number below to taken, to cannot exceed the taken codes by much.
  lemma TriedBound(used: set<string>, variant: nat -> string, to: nat)
    requires AllDifferent(variant) && to >= 2 && Tried(variant, to) <= used
    ensures to <= |used| + 2
  {
    TriedSize(variant, to);
    SubsetSize(Tried(variant, to), used);
  }

  // base itself when free, else the first free variant; n says which number was used.
  ghost predicate FirstFree(used: set<string>, base: string, variant: nat -> string, code: string) {
    && code !in used
    && (code == base || (base in used && exists n: nat :: FirstFreeNumber(used, base, variant, n) && code == variant(n)))
  }

  // Number n is found after n candidates, the base among them: one for each code in use and
  // one more, unless the base came up again as a variant of itself.
  ghost predicate FirstFreeNumber(used: set<string>, base: string, variant: nat -> string, n: nat) {
    && 2 <= n <= |used| + 2 && variant(n) !in used && Tried(variant, n) <= used
    && (base !in Tried(variant, n) ==> n <= |used| + 1)
  }

  lemma NumberFound(used: set<string>, base: string, variant: nat -> string, n: nat)
    requires AllDifferent(variant) && n >= 2 && base in used && Tried(variant, n) <= used && variant(n) !in used
    ensures FirstFreeNumber(used, base, variant, n)
  {
    TriedBound(used, variant, n);
    if base !in Tried(variant, n) {
      TriedSize(variant, n);
      SubsetSize(Tried(variant, n) + {base}, used);
    }
  }

  // One candidate more than that is needed exactly when base is in use and nothing else is but
  // the first variants.
  lemma CandidatesExceedIff(used: set<string>, base: string, variant: nat -> string)
    requires AllDifferent(variant)
    ensures (exists n: nat :: base in used && FirstFreeNumber(used, base, variant, n) && n == |used| + 2)
      <==> base in used && used == Tried(variant, |used| + 2)
  {
    var n := |used| + 2;
    TriedSize(variant, n);
    if base in used && FirstFreeNumber(used, base, variant, n) && used != Tried(variant, n) {
      var other :| other in used && other !in Tried(variant, n);
      SubsetSize(Tried(variant, n) + {other}, used);
    }
    if base in used && used == Tried(variant, n) {
      NumberFound(used, base, variant, n);
    }
  }

  predicate EndsWith(s: string, tail: string) { |s| >= |tail| && s[|s| - |tail|..] == tail }

  // A playlist or channel code is a variant of itself exactly when it has full length and ends
  // in a number's tail.
  lemma OwnVariantIff(base: string, n: nat)
    requires |base| <= CODE_LENGTH
    ensures Variant(base, n) == base <==> |base| == CODE_LENGTH && EndsWith(base, Tail(n))
  {
    var k := CODE_LENGTH - |Tail(n)|;
    if |base| == CODE_LENGTH && k >= 0 {
      assert base == base[..k] + base[k..];
      assert Variant(base, n)[k..] == Tail(n);
    }
  }

  // A site or zone code, when a number's tail is all that follows its first 44 characters.
  lemma OwnResourceVariantIff(base: string, n: nat)
    ensures ResourceVariant(base, n) == base <==> |base| == 44 + |Tail(n)| && EndsWith(base, Tail(n))
  {
    if |base| == 44 + |Tail(n)| {
      assert base == base[..44] + base[44..];
      assert ResourceVariant(base, n)[44..] == Tail(n);
    }
  }

  // Such a code alone in use costs three candidates.
  lemma OwnVariantCostsOneMore(base: string)
    requires |base| == CODE_LENGTH && EndsWith(base, Tail(2))
    ensures FirstFreeNumber({base}, base, Variants(base), 3)
  {
    OwnVariantIff(base, 2);
    VariantsDiffer(base);
    assert Tried(Variants(base), 3) == {Variants(base)(2)};
    assert Variants(base)(3) != Variants(base)(2);
    NumberFound({base}, base, Variants(base), 3);
  }

  // next_available_code: base is the normalised code, never empty.
  method NextAvailableCode(used: set<string>, base: string) returns (code: string)
    ensures FirstFree(used, base, Variants(base), code)
    ensures |base| <= CODE_LENGTH && |Tail(|used| + 2)| <= CODE_LENGTH ==> |code| <= CODE_LENGTH
  {
    ghost var variant := Variants(base);
    VariantsDiffer(base);
    code := base;
    var suffix := 2;
    while code in used
      invariant suffix >= 2 && (suffix == 2 ==> code == base)
      invariant suffix > 2 ==> base in used && code == Variant(base, suffix - 1)
      invariant suffix > 2 ==> Tried(variant, suffix - 1) <= used && suffix - 1 <= |used| + 2
      decreases |used| + 3 - suffix
    {
      if suffix > 2 {
        assert Tried(variant, suffix) == Tried(variant, suffix - 1) + {variant(suffix - 1)};
      }
      assert Tried(variant, suffix) <= used;
      TriedBound(used, variant, suffix);
      var tail := "-" + Dec(suffix);
      code := Slice(base, CODE_LENGTH - |tail|) + tail;
      suffix := suffix + 1;
    }
    if suffix > 2 {
      NumberFound(used, base, variant, suffix - 1);
      DecMonotone(suffix - 1, |used| + 2);
    }
  }

  lemma VariantsDiffer(base: string)
    ensures AllDifferent(Variants(base))
    ensures AllDifferent(ResourceVariants(base))
  {
    forall m: nat, n: nat | Variant(base, m) == Variant(base, n) ensures m == n {
      TailDecides(Slice(base, CODE_LENGTH - |Tail(m)|), m, Slice(base, CODE_LENGTH - |Tail(n)|), n);
    }
    forall m: nat, n: nat | ResourceVariant(base, m) == ResourceVariant(base, n) ensures m == n {
      TailDecides(Slice(base, 44), m, Slice(base, 44), n);
    }
  }

  // _generate_code, which counts before it prints.
  method GenerateCode(used: set<string>, base: string) returns (code: string)
    ensures FirstFree(used, base, ResourceVariants(base), code)
    ensures code == base || |code| <= 44 + |Tail(|used| + 2)|
  {
    ghost var variant := ResourceVariants(base);
    VariantsDiffer(base);
    code := base;
    var suffix := 1;
    while code in used
      invariant suffix >= 1 && (suffix == 1 ==> code == base)
      invariant suffix > 1 ==> base in used && code == ResourceVariant(base, suffix)
      invariant suffix > 1 ==> Tried(variant, suffix) <= used && suffix <= |used| + 2
      decreases |used| + 3 - suffix
    {
      if suffix > 1 {
        assert Tried(variant, suffix + 1) == Tried(variant, suffix) + {variant(suffix)};
      }
      assert Tried(variant, suffix + 1) <= used;
      TriedBound(used, variant, suffix + 1);
      suffix := suffix + 1;
      code := Slice(base, 44) + "-" + Dec(suffix);
      assert code == ResourceVariant(base, suffix);
    }
    if suffix > 1 {
      NumberFound(used, base, variant, suffix);
      DecMonotone(suffix, |used| + 2);
    }
  }
}
