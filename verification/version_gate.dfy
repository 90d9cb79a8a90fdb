/**
 The rule by which a session decides whether a registry update for its
 application master replaces the cached (version, plugin info) pair.
 A version is the registry's sequence number for one observed state of the
 endpoint; an info of `None` stands for the endpoint's removal.
 */
module VersionGate {
  import opened Wrappers

  /** The cached pair: `amPluginendpointVersion` and `amPluginInfo`. */
  datatype Cache<I> = Cache(version: Option<int>, info: Option<I>)

  const Empty: Cache<int> := Cache(None, None)

  /** The test the session applies before taking an update: a version is
      cached and it is newer, or it is the same and the update is not a removal. */
  predicate IsOutdated<I>(cached: Option<int>, version: int, info: Option<I>)
  {
    cached.Some? && (cached.value > version || (cached.value == version && info.Some?))
  }

  /** The same rule stated case by case: accept when nothing is cached, reject a
      stale version, let only a removal through at the cached version, accept a
      newer version. */
  predicate Accepts<I>(cached: Option<int>, version: int, info: Option<I>)
  {
    match cached
    case None => true
    case Some(vc) =>
      if version < vc then false
      else if version == vc then info.None?
      else true
  }

  /** One registry update applied to the cache. */
  function Apply<I>(c: Cache<I>, version: int, info: Option<I>): (r: Cache<I>)
    ensures !Accepts(c.version, version, info) ==> r == c
    ensures Accepts(c.version, version, info) ==> r.version == Some(version) && r.info == info
    ensures c.version.Some? ==> r.version.Some? && r.version.value >= c.version.value
  {
    if IsOutdated(c.version, version, info) then c else Cache(Some(version), info)
  }

  /** The code's test and the case-by-case rule reject exactly the same updates. */
  lemma OutdatedIffRejected<I>(cached: Option<int>, version: int, info: Option<I>)
    ensures IsOutdated(cached, version, info) <==> !Accepts(cached, version, info)
  {
  }

  /** Updates applied in delivery order. */
  function ApplyAll<I>(c: Cache<I>, updates: seq<(int, Option<I>)>): Cache<I>
    decreases |updates|
  {
    if |updates| == 0 then c
    else ApplyAll(Apply(c, updates[0].0, updates[0].1), updates[1..])
  }

  /** Whatever the delivery order, the cached version never goes backwards. */
  lemma {:induction false} ApplyAllNeverGoesBack<I>(c: Cache<I>, updates: seq<(int, Option<I>)>)
    requires c.version.Some?
    ensures ApplyAll(c, updates).version.Some?
    ensures ApplyAll(c, updates).version.value >= c.version.value
    decreases |updates|
  {
    if |updates| > 0 {
      ApplyAllNeverGoesBack(Apply(c, updates[0].0, updates[0].1), updates[1..]);
    }
  }

  /** After any non-empty delivery sequence the cached version is at least every
      delivered version, and it is one of them (or the one cached before):
      the cache ends at the highest version seen. */
  lemma {:induction false} ApplyAllReachesHighestVersion<I>(c: Cache<I>, updates: seq<(int, Option<I>)>)
    requires |updates| > 0
    ensures ApplyAll(c, updates).version.Some?
    ensures forall i :: 0 <= i < |updates| ==> ApplyAll(c, updates).version.value >= updates[i].0
    ensures ApplyAll(c, updates).version == c.version
         || exists i :: 0 <= i < |updates| && ApplyAll(c, updates).version == Some(updates[i].0)
    decreases |updates|
  {
    var c1 := Apply(c, updates[0].0, updates[0].1);
    var rest := updates[1..];
    assert c1.version.Some? && c1.version.value >= updates[0].0;
    if |rest| == 0 {
      assert ApplyAll(c, updates) == c1;
      if c1 != c {
        assert c1.version == Some(updates[0].0);
      }
    } else {
      ApplyAllReachesHighestVersion(c1, rest);
      ApplyAllNeverGoesBack(c1, rest);
      var fin := ApplyAll(c, updates);
      assert fin == ApplyAll(c1, rest);
      forall i | 0 <= i < |updates|
        ensures fin.version.value >= updates[i].0
      {
        if i > 0 {
          assert updates[i] == rest[i - 1];
        }
      }
      if fin.version != c1.version {
        var j :| 0 <= j < |rest| && fin.version == Some(rest[j].0);
        assert rest[j] == updates[j + 1];
      } else if c1 != c {
        assert c1.version == Some(updates[0].0);
      }
    }
  }

  /** The cases of the rule: a removal at the cached version goes
      through, a second non-removal at that version does not, a newer version
      goes through and an older one afterwards does not. */
  lemma GateExamples()
    ensures var a := Apply(Empty, 1, Some(10));
            Apply(a, 1, None) == Cache(Some(1), None)
    ensures var a := Apply(Empty, 1, Some(10));
            Apply(a, 1, Some(20)) == Cache(Some(1), Some(10))
    ensures var b := Apply(Apply(Empty, 1, Some(10)), 2, Some(20));
            b == Cache(Some(2), Some(20)) && Apply(b, 1, Some(30)) == b
  {
  }
}
