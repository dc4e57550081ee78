/**
 * Composite keys of the world state.
 *
 * The ledger stores every record under a composite key built from a type
 * tag ("Currency", "Loan", "Insurance") and two components: the owner (or
 * applicant) and the record id. The platform joins the parts with U+0000
 * separators and refuses U+0000 inside a component, so within one tag the
 * keys are ordered lexicographically by owner and then by id. That order is
 * the order in which a partial-composite-key scan yields records.
 */
module Keys {

  /** Lexicographic "strictly less" on strings, a proper prefix being smaller. */
  predicate StrLess(a: string, b: string)
  {
    if |a| == 0 then |b| > 0
    else if |b| == 0 then false
    else if a[0] == b[0] then StrLess(a[1..], b[1..])
    else a[0] < b[0]
  }

  lemma {:induction false} StrLessIrreflexive(a: string)
    ensures !StrLess(a, a)
  {
    if |a| > 0 {
      StrLessIrreflexive(a[1..]);
    }
  }

  lemma {:induction false} StrLessTransitive(a: string, b: string, c: string)
    requires StrLess(a, b) && StrLess(b, c)
    ensures StrLess(a, c)
  {
    if |a| > 0 && |b| > 0 && |c| > 0 && a[0] == b[0] && b[0] == c[0] {
      StrLessTransitive(a[1..], b[1..], c[1..]);
    }
  }

  lemma {:induction false} StrLessTotal(a: string, b: string)
    requires a != b
    ensures StrLess(a, b) || StrLess(b, a)
  {
    if |a| > 0 && |b| > 0 && a[0] == b[0] {
      assert a == [a[0]] + a[1..] && b == [b[0]] + b[1..];
      StrLessTotal(a[1..], b[1..]);
    }
  }

  /** The two components of a composite key below its type tag. */
  datatype Key = Key(owner: string, id: string)

  /** The ledger's key order within one tag: by owner, then by id. */
  predicate KeyLess(a: Key, b: Key)
  {
    StrLess(a.owner, b.owner) || (a.owner == b.owner && StrLess(a.id, b.id))
  }

  lemma KeyLessIrreflexive(a: Key)
    ensures !KeyLess(a, a)
  {
    StrLessIrreflexive(a.owner);
    StrLessIrreflexive(a.id);
  }

  lemma KeyLessTransitive(a: Key, b: Key, c: Key)
    requires KeyLess(a, b) && KeyLess(b, c)
    ensures KeyLess(a, c)
  {
    if StrLess(a.owner, b.owner) && StrLess(b.owner, c.owner) {
      StrLessTransitive(a.owner, b.owner, c.owner);
    } else if a.owner == b.owner && b.owner == c.owner {
      StrLessTransitive(a.id, b.id, c.id);
    }
  }

  lemma KeyLessTotal(a: Key, b: Key)
    requires a != b
    ensures KeyLess(a, b) || KeyLess(b, a)
  {
    if a.owner != b.owner {
      StrLessTotal(a.owner, b.owner);
    } else {
      StrLessTotal(a.id, b.id);
    }
  }
}
