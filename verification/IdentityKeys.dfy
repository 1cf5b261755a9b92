/** The names of browser identities (`NewIdentities` and `keyLocked` in pkg/browser/identity.go): no
    two slots and generations share a key. */
module IdentityKeys {

  function Digit(n: nat): (c: char)
    requires n < 10
    ensures '0' <= c <= '9'
  {
    '0' + n as char
  }

  /** `%d`. */
  function Decimal(n: nat): (s: string)
    ensures s != "" && forall c | c in s :: '0' <= c <= '9'
  {
    if n < 10 then [Digit(n)] else Decimal(n / 10) + [Digit(n % 10)]
  }

  /** The number that decimal digits stand for. */
  function Value(s: string): nat {
    if s == "" then 0
    else 10 * Value(s[..|s| - 1]) + if '0' <= s[|s| - 1] <= '9' then s[|s| - 1] as int - '0' as int else 0
  }

  lemma {:induction false} DecimalReads(n: nat)
    ensures Value(Decimal(n)) == n && (|Decimal(n)| > 1 ==> Decimal(n)[0] != '0')
  {
    if n >= 10 {
      DecimalReads(n / 10);
      assert Decimal(n)[..|Decimal(n)| - 1] == Decimal(n / 10);
      assert n / 10 >= 10 || Decimal(n / 10) == [Digit(n / 10)];
    } else {
      assert Decimal(n) == [Digit(n)] && Value([Digit(n)][..0]) == 0;
    }
  }

  lemma {:induction false} DecimalIsInjective(a: nat, b: nat)
    requires Decimal(a) == Decimal(b)
    ensures a == b
  {
    var s, t := Decimal(a), Decimal(b);
    assert s[|s| - 1] == Digit(a % 10) && t[|t| - 1] == Digit(b % 10);
    assert (a < 10 <==> |s| == 1) && (b < 10 <==> |t| == 1);
    if a >= 10 {
      assert s[..|s| - 1] == Decimal(a / 10) && t[..|t| - 1] == Decimal(b / 10);
      DecimalIsInjective(a / 10, b / 10);
    }
  }

  function SlotName(base: string, slot: nat): string {
    if slot == 0 then base else base + "-s" + Decimal(slot)
  }

  function Key(base: string, slot: nat, generation: nat): string {
    SlotName(base, slot) + "-g" + Decimal(generation)
  }

  /** What follows the common base in a key. */
  function Suffix(slot: nat, generation: nat): string {
    (if slot == 0 then "" else "-s" + Decimal(slot)) + "-g" + Decimal(generation)
  }

  lemma KeyIsBaseAndSuffix(base: string, slot: nat, generation: nat)
    ensures Key(base, slot, generation) == base + Suffix(slot, generation)
  {
    if slot > 0 {
      assert (base + "-s" + Decimal(slot)) + "-g" + Decimal(generation) == base + (("-s" + Decimal(slot)) + "-g" + Decimal(generation));
    } else {
      assert base + "-g" + Decimal(generation) == base + ("" + "-g" + Decimal(generation));
    }
  }

  lemma NoDashBefore(digits: string, rest: string)
    requires forall c | c in digits :: '0' <= c <= '9'
    ensures forall i | 0 <= i < |digits| :: (digits + "-" + rest)[i] != '-'
  {
    forall i | 0 <= i < |digits|
      ensures (digits + "-" + rest)[i] != '-'
    {
      assert (digits + "-" + rest)[i] == digits[i] && digits[i] in digits;
    }
  }

  /** Two texts of digits, each followed by a dash, agree digit by digit. */
  lemma DigitsEndAtTheDash(a: string, b: string, restA: string, restB: string)
    requires (forall c | c in a :: '0' <= c <= '9') && (forall c | c in b :: '0' <= c <= '9')
    requires a + "-" + restA == b + "-" + restB
    ensures a == b && restA == restB
  {
    var s, t := a + "-" + restA, b + "-" + restB;
    assert s[|a|] == '-' && t[|b|] == '-';
    NoDashBefore(a, restA);
    NoDashBefore(b, restB);
    assert a == s[..|a|] && b == t[..|b|];
    assert restA == s[|a| + 1..] && restB == t[|b| + 1..];
  }

  lemma SuffixIsInjective(slot: nat, generation: nat, otherSlot: nat, otherGeneration: nat)
    requires Suffix(slot, generation) == Suffix(otherSlot, otherGeneration)
    ensures slot == otherSlot && generation == otherGeneration
  {
    var s, t := Suffix(slot, generation), Suffix(otherSlot, otherGeneration);
    assert s[1] == if slot == 0 then 'g' else 's';
    assert t[1] == if otherSlot == 0 then 'g' else 's';
    if slot == 0 {
      assert s[2..] == Decimal(generation) && t[2..] == Decimal(otherGeneration);
      DecimalIsInjective(generation, otherGeneration);
    } else {
      assert s[2..] == Decimal(slot) + "-" + ("g" + Decimal(generation));
      assert t[2..] == Decimal(otherSlot) + "-" + ("g" + Decimal(otherGeneration));
      DigitsEndAtTheDash(Decimal(slot), Decimal(otherSlot), "g" + Decimal(generation), "g" + Decimal(otherGeneration));
      DecimalIsInjective(slot, otherSlot);
      assert ("g" + Decimal(generation))[1..] == Decimal(generation);
      assert ("g" + Decimal(otherGeneration))[1..] == Decimal(otherGeneration);
      DecimalIsInjective(generation, otherGeneration);
    }
  }

  /** Slots and generations are told apart by their keys. */
  lemma KeyIsInjective(base: string, slot: nat, generation: nat, otherSlot: nat, otherGeneration: nat)
    ensures Key(base, slot, generation) == Key(base, otherSlot, otherGeneration) <==> slot == otherSlot && generation == otherGeneration
  {
    if Key(base, slot, generation) == Key(base, otherSlot, otherGeneration) {
      KeyIsBaseAndSuffix(base, slot, generation);
      KeyIsBaseAndSuffix(base, otherSlot, otherGeneration);
      assert (base + Suffix(slot, generation))[|base|..] == Suffix(slot, generation);
      assert (base + Suffix(otherSlot, otherGeneration))[|base|..] == Suffix(otherSlot, otherGeneration);
      SuffixIsInjective(slot, generation, otherSlot, otherGeneration);
    }
  }
}
