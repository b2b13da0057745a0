/** Generated ids: a type prefix and a number no earlier id of the kind has used. */
module Ids {
  datatype IdKind = ChronicleId | EventId | ContextId | ArtifactId | VersionId | RdeId | AuditId | ObjectId | PackageId

  function Prefix(k: IdKind): string {
    match k
    case ChronicleId => "chr_"
    case EventId => "evt_"
    case ContextId => "ctx_"
    case ArtifactId => "art_"
    case VersionId => "ver_"
    case RdeId => "rde_"
    case AuditId => "aud_"
    case ObjectId => "obj_"
    case PackageId => "pkg_"
  }

  const DIGITS := "0123456789"

  function Digits(n: nat): string {
    if n < 10 then [DIGITS[n]] else Digits(n / 10) + [DIGITS[n % 10]]
  }

  function FreshId(k: IdKind, n: nat): string {
    Prefix(k) + Digits(n)
  }

  /** The prefix of each kind of generated id. */
  lemma GeneratedPrefixes(n: nat)
    ensures "chr_" <= FreshId(ChronicleId, n) && "evt_" <= FreshId(EventId, n) && "ctx_" <= FreshId(ContextId, n)
    ensures "art_" <= FreshId(ArtifactId, n) && "ver_" <= FreshId(VersionId, n) && "rde_" <= FreshId(RdeId, n)
    ensures "aud_" <= FreshId(AuditId, n) && "obj_" <= FreshId(ObjectId, n)
  {
  }

  lemma {:induction false} DigitsInjective(m: nat, n: nat)
    requires Digits(m) == Digits(n)
    ensures m == n
  {
    DigitsLength(m);
    DigitsLength(n);
    var a, b := Digits(m), Digits(n);
    assert a[|a| - 1] == DIGITS[m % 10] && b[|b| - 1] == DIGITS[n % 10];
    DigitCharacters(m % 10, n % 10);
    if m >= 10 && n >= 10 {
      assert a[..|a| - 1] == Digits(m / 10) && b[..|b| - 1] == Digits(n / 10);
      DigitsInjective(m / 10, n / 10);
    }
  }

  lemma DigitCharacters(i: nat, j: nat)
    requires i < 10 && j < 10 && DIGITS[i] == DIGITS[j]
    ensures i == j
  {
  }

  lemma {:induction false} DigitsLength(n: nat)
    ensures |Digits(n)| >= 1 && (|Digits(n)| == 1 <==> n < 10)
  {
    if n >= 10 {
      DigitsLength(n / 10);
    }
  }

  lemma FreshIdInjective(k: IdKind, m: nat, n: nat)
    requires FreshId(k, m) == FreshId(k, n)
    ensures m == n
  {
    assert FreshId(k, m)[|Prefix(k)|..] == Digits(m);
    assert FreshId(k, n)[|Prefix(k)|..] == Digits(n);
    DigitsInjective(m, n);
  }

  /** `id` is none of the ids still to be generated once `next` numbers are used up. */
  ghost predicate Past(k: IdKind, id: string, next: nat) {
    forall n :: n >= next ==> id != FreshId(k, n)
  }

  lemma PastAfter(k: IdKind, n: nat, next: nat)
    requires n < next
    ensures Past(k, FreshId(k, n), next)
  {
    forall m | m >= next ensures FreshId(k, n) != FreshId(k, m) {
      if FreshId(k, n) == FreshId(k, m) {
        FreshIdInjective(k, n, m);
      }
    }
  }
}
