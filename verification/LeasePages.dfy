/** The page a lease takes from a queue: the first by a key, then by id, up to a limit. */
module LeasePages {
  import opened Common

  predicate Earlier(keys: map<nat, int>, a: nat, b: nat)
    requires a in keys && b in keys
  {
    keys[a] < keys[b] || (keys[a] == keys[b] && a < b)
  }

  /** No more than the limit, and nothing left out comes before anything taken; something is left out only when the page is full. */
  ghost predicate IsFirst(keys: map<nat, int>, page: set<nat>, limit: nat) {
    && page <= keys.Keys && |page| <= limit
    && (page != keys.Keys ==> |page| == limit)
    && forall taken, left :: taken in page && left in keys && left !in page ==> Earlier(keys, taken, left)
  }

  /** `ORDER BY key, id LIMIT limit`. */
  method SelectFirst(keys: map<nat, int>, limit: nat) returns (page: set<nat>)
    ensures IsFirst(keys, page, limit)
  {
    page := {};
    var rest := keys.Keys;
    while rest != {} && |page| < limit
      invariant page !! rest && page + rest == keys.Keys && |page| <= limit
      invariant forall taken, id :: taken in page && id in rest ==> Earlier(keys, taken, id)
      decreases rest
    {
      var least := Least(keys, rest);
      rest := rest - {least};
      page := page + {least};
    }
  }

  method Least(keys: map<nat, int>, among: set<nat>) returns (least: nat)
    requires among != {} && among <= keys.Keys
    ensures least in among && forall id :: id in among && id != least ==> Earlier(keys, least, id)
  {
    least :| least in among;
    var todo := among - {least};
    while todo != {}
      invariant todo <= among && least in among && least !in todo
      invariant forall id :: id in among && id !in todo && id != least ==> Earlier(keys, least, id)
      decreases todo
    {
      var id :| id in todo;
      todo := todo - {id};
      if Earlier(keys, id, least) { least := id; }
    }
  }

  lemma Nested(keys: map<nat, int>, a: set<nat>, b: set<nat>, limit: nat)
    requires IsFirst(keys, a, limit) && IsFirst(keys, b, limit)
    ensures a <= b || b <= a
  {
    if !(a <= b) {
      var x :| x in a && x !in b;
      forall y | y in b ensures y in a {
      }
    }
  }

  /** There is one such page. */
  lemma OnePage(keys: map<nat, int>, a: set<nat>, b: set<nat>, limit: nat)
    requires IsFirst(keys, a, limit) && IsFirst(keys, b, limit)
    ensures a == b
  {
    Nested(keys, a, b, limit);
    if a < b { Fewer(a, b); }
    if b < a { Fewer(b, a); }
  }

  lemma Fewer(a: set<nat>, b: set<nat>)
    requires a < b
    ensures |a| < |b|
  {
    var x :| x in b && x !in a;
    assert a <= b - {x};
    FewerOrAsMany(a, b - {x});
  }
}
