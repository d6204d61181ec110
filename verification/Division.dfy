/** Two facts about quotients. */
module Division {

  lemma Steps(a: nat, b: nat, p: nat)
    requires a < b
    ensures a * p + p <= b * p
  {
    var k: nat := b - a - 1;
    assert b * p == (a + 1 + k) * p == a * p + p + k * p;
  }

  lemma Quotient(d: nat, rest: nat, p: nat)
    requires rest < p
    ensures (d * p + rest) / p == d && (d * p + rest) % p == rest
  {
    var q := (d * p + rest) / p;
    if q < d {
      Steps(q, d, p);
    } else if q > d {
      Steps(d, q, p);
    }
  }
}
