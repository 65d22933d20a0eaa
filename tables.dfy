/** Tables keyed by number. The editors store their entries under `str(n)`; holding them
    keyed by `n` is equivalent because `str` is injective on naturals
    (`Decimal.ShowInjective`), and `TextKeys` gives the stored form back. */
module Tables {
  import Decimal

  /** The dictionary as the program keeps it: each entry under the decimal text of its
      number, and nothing else. */
  function TextKeys<V>(m: map<nat, V>): (t: map<string, V>)
    ensures forall n :: n in m ==> Decimal.Show(n) in t && t[Decimal.Show(n)] == m[n]
    ensures forall k :: k in t ==> Decimal.IsCanonical(k) && Decimal.Parse(k).value in m
  {
    forall n | n in m
      ensures Decimal.IsCanonical(Decimal.Show(n)) && Decimal.Parse(Decimal.Show(n)).value == n
    {
      Decimal.ShowIsCanonical(n);
    }
    map k | k in (set n | n in m :: Decimal.Show(n)) :: m[Decimal.Parse(k).value]
  }

  /** The stored form has the text of a number exactly when the table has the number. */
  lemma TextKeysLookup<V>(m: map<nat, V>, n: nat)
    ensures Decimal.Show(n) in TextKeys(m) <==> n in m
  {
    Decimal.ShowIsCanonical(n);
  }

  /** `max(int(k) for k in table)`: the largest number in a non-empty table. */
  method MaxKey<V>(m: map<nat, V>) returns (r: nat)
    requires m != map[]
    ensures r in m
    ensures forall n :: n in m ==> n <= r
  {
    var pending := m.Keys;
    var first :| first in pending;
    r := first;
    pending := pending - {first};
    while pending != {}
      invariant pending <= m.Keys
      invariant r in m
      invariant forall n :: n in m && n !in pending ==> n <= r
      decreases pending
    {
      var n :| n in pending;
      if n > r {
        r := n;
      }
      pending := pending - {n};
    }
  }
}
