/** The registry of converter factories by file extension. */
module Registry {
  import opened Rows

  /** A nil factory is None.  `F` is whatever a factory is. */
  type Factories<F> = map<string, Option<F>>

  predicate ValidExtension(normalized: string) {
    normalized != "" && normalized[0] == '.'
  }

  predicate CanRegister<F>(factories: Factories<F>, normalized: string, factory: Option<F>) {
    ValidExtension(normalized) && factory.Some? && normalized !in factories
  }

  /** No two extensions of `more` become the same, all are valid, none is taken. */
  predicate CanMerge<F(!new)>(lower: string -> string, factories: Factories<F>, more: Factories<F>) {
    && (forall x | x in more :: CanRegister(factories, lower(x), more[x]))
    && (forall x, y | x in more && y in more :: lower(x) == lower(y) ==> x == y)
  }

  /** `result` is the disjoint union of `factories` and `more` with its extensions
      normalised, and nothing else. */
  ghost predicate Joins<F(!new)>(lower: string -> string, factories: Factories<F>, more: Factories<F>,
                                 result: Factories<F>) {
    && (forall k | k in factories :: k in result && result[k] == factories[k])
    && (forall x | x in more :: lower(x) in result && result[lower(x)] == more[x])
    && (forall k | k in result :: k in factories || exists x :: x in more && lower(x) == k)
  }

  class Registry<F(!new)> {
    const lower: string -> string
    var factories: Factories<F>

    constructor (lower: string -> string)
      ensures this.lower == lower && factories == map[]
    {
      this.lower := lower;
      factories := map[];
    }

    method Register(extension: string, factory: Option<F>) returns (ok: bool)
      modifies this
      ensures ok <==> CanRegister(old(factories), lower(extension), factory)
      ensures factories == if ok then old(factories)[lower(extension) := factory] else old(factories)
    {
      var normalized := lower(extension);
      if normalized == "" || !("." <= normalized) {
        return false;
      }
      if factory.None? {
        return false;
      }
      if normalized in factories {
        return false;
      }
      factories := factories[normalized := factory];
      return true;
    }

    method Unregister(extension: string) returns (ok: bool)
      modifies this
      ensures ok <==> lower(extension) in old(factories)
      ensures factories == old(factories) - {lower(extension)}
    {
      var normalized := lower(extension);
      ok := normalized in factories;
      if ok {
        factories := factories - {normalized};
      }
    }

    /** Converter, up to the call of the factory. */
    method Find(extension: string) returns (found: Option<Option<F>>)
      ensures found.Some? <==> lower(extension) in factories
      ensures found.Some? ==> found.value == factories[lower(extension)]
    {
      var normalized := lower(extension);
      found := if normalized in factories then Some(factories[normalized]) else None;
    }

    /** Adds the entries of `source`, in any order. */
    method Copy(source: Factories<F>)
      modifies this
      ensures factories == old(factories) + source
    {
      var left := source.Keys;
      while left != {}
        invariant left <= source.Keys
        invariant factories == old(factories) + (source - left)
        decreases left
      {
        var extension :| extension in left;
        factories := factories[extension := source[extension]];
        left := left - {extension};
      }
      assert source - left == source;
    }

    /** Registers the entries of `more` in any order, until one is refused. */
    method RegisterAll(more: Factories<F>) returns (ok: bool)
      modifies this
      ensures ok <==> CanMerge(lower, old(factories), more)
      ensures ok ==> Joins(lower, old(factories), more, factories)
    {
      ghost var base := factories;
      var left := more.Keys;
      assert more - left == map[];
      while left != {}
        invariant left <= more.Keys
        invariant CanMerge(lower, base, more - left)
        invariant Joins(lower, base, more - left, factories)
        decreases left
      {
        var extension :| extension in left;
        ghost var done := more - left;
        left := left - {extension};
        assert more - left == done[extension := more[extension]];
        if CanMerge(lower, base, more) {
          FewerCanMerge(lower, base, more, more - left);
        }
        OneMoreJoins(lower, base, done, factories, extension, more[extension]);
        var registered := Register(extension, more[extension]);
        if !registered {
          return false;
        }
      }
      assert more - left == more;
      return true;
    }

    /** The outcome does not depend on the order in which the maps are visited: it succeeds
        exactly if the normalised extensions can be added, the result is the disjoint union,
        and a failure leaves the receiver as it was. */
    method Merge(other: Registry<F>) returns (ok: bool)
      requires other.lower == lower
      modifies this
      ensures ok <==> CanMerge(lower, old(factories), old(other.factories))
      ensures ok ==> Joins(lower, old(factories), old(other.factories), factories)
      ensures !ok ==> factories == old(factories)
    {
      hide CanMerge;
      var merged := new Registry<F>(lower);
      merged.Copy(factories);
      assert merged.factories == factories;
      ok := merged.RegisterAll(other.factories);
      if ok {
        Copy(merged.factories);
      }
    }
  }

  lemma FewerCanMerge<F(!new)>(lower: string -> string, base: Factories<F>, more: Factories<F>, fewer: Factories<F>)
    requires CanMerge(lower, base, more) && forall x | x in fewer :: x in more && fewer[x] == more[x]
    ensures CanMerge(lower, base, fewer)
  {}

  /** The next extension is accepted exactly if it can be merged with those before it. */
  lemma OneMoreJoins<F(!new)>(lower: string -> string, base: Factories<F>, done: Factories<F>, result: Factories<F>,
                              x: string, factory: Option<F>)
    requires x !in done && CanMerge(lower, base, done) && Joins(lower, base, done, result)
    ensures var next := done[x := factory];
      && (CanRegister(result, lower(x), factory) <==> CanMerge(lower, base, next))
      && (CanMerge(lower, base, next) ==> Joins(lower, base, next, result[lower(x) := factory]))
  {
    var next := done[x := factory];
    if CanMerge(lower, base, next) {
      assert x in next;
      forall y | y in done ensures lower(y) != lower(x) {
        assert y in next;
      }
      var after := result[lower(x) := factory];
      forall k | k in after ensures k in base || exists y :: y in next && lower(y) == k {
        if k != lower(x) && k !in base {
          var y :| y in done && lower(y) == k;
          assert y in next;
        }
      }
    }
  }

  /** There is only one such union. */
  lemma JoinsIsUnique<F(!new)>(lower: string -> string, factories: Factories<F>, more: Factories<F>,
                               r: Factories<F>, s: Factories<F>)
    requires Joins(lower, factories, more, r) && Joins(lower, factories, more, s)
    ensures r == s
  {
    forall k ensures k in r <==> k in s {}
    forall k | k in r ensures r[k] == s[k] {
      if k !in factories {
        var x :| x in more && lower(x) == k;
      }
    }
  }
}
