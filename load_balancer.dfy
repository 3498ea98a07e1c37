/**
 * A load balancer configuration: a record of fields with defaults, each
 * setter overwriting one field wholesale, and a fixed-shape `toArray` that
 * leaves out the session affinity, the steering policy and the TTL.
 */
module LoadBalancers {
  import opened Php
  import opened Keyed

  /** Every field of the configuration; pool maps and weights are ordered key/value lists. */
  datatype LoadBalancerState = LoadBalancerState(
    name: string,
    fallbackPool: string,
    defaultPools: seq<string>,
    failoverAcrossPools: bool,
    proxied: bool,
    countryPools: seq<(string, Value)>,
    popPools: seq<(string, Value)>,
    regionPools: seq<(string, Value)>,
    randomSteering: seq<(string, Value)>,
    description: string,
    locationStrategy: seq<(string, Value)>,
    sessionAffinity: string,
    steeringPolicy: string,
    ttl: Option<int>)

  /** The defaults of a new load balancer, around the three constructor arguments. */
  function Initial(name: string, fallbackPool: string, defaultPools: seq<string>): LoadBalancerState {
    LoadBalancerState(
      name, fallbackPool, defaultPools,
      false, false, [], [], [], [], "",
      [("mode", Str("pop")), ("prefer_ecs", Str("proximity"))],
      "none", "", None)
  }

  function Strings(ss: seq<string>): (r: seq<Value>)
    ensures |r| == |ss| && forall i :: 0 <= i < |ss| ==> r[i] == Str(ss[i])
  {
    seq(|ss|, i requires 0 <= i < |ss| => Str(ss[i]))
  }

  /** `toArray()`: eleven keys in a fixed order. */
  function SerializeLoadBalancer(st: LoadBalancerState): (r: Value)
    ensures r.Map? && |r.entries| == 11
  {
    Map([
      ("name", Str(st.name)),
      ("adaptive_routing", Map([("failover_across_pools", Bool(st.failoverAcrossPools))])),
      ("country_pools", Map(st.countryPools)),
      ("default_pools", List(Strings(st.defaultPools))),
      ("description", Str(st.description)),
      ("fallback_pool", Str(st.fallbackPool)),
      ("location_strategy", Map(st.locationStrategy)),
      ("pop_pools", Map(st.popPools)),
      ("proxied", Bool(st.proxied)),
      ("random_steering", Map(st.randomSteering)),
      ("region_pools", Map(st.regionPools))])
  }

  /** The serialised keys, whatever the state. */
  lemma LoadBalancerKeys(st: LoadBalancerState)
    ensures Keys(SerializeLoadBalancer(st).entries) == [
      "name", "adaptive_routing", "country_pools", "default_pools", "description", "fallback_pool",
      "location_strategy", "pop_pools", "proxied", "random_steering", "region_pools"]
  {
  }

  /** No key of the serialised array occurs twice. */
  lemma DistinctKeys()
    ensures Unique([
      "name", "adaptive_routing", "country_pools", "default_pools", "description", "fallback_pool",
      "location_strategy", "pop_pools", "proxied", "random_steering", "region_pools"])
  {
  }

  /**
   * What each key holds: every field under its own key, the failover flag
   * nested in `adaptive_routing`, the pool maps and the location strategy
   * as given.
   */
  lemma {:induction false} LoadBalancerFields(st: LoadBalancerState)
    ensures var e := SerializeLoadBalancer(st).entries;
      && Find(e, "name") == Some(Str(st.name))
      && Find(e, "adaptive_routing") == Some(Map([("failover_across_pools", Bool(st.failoverAcrossPools))]))
      && Find(e, "country_pools") == Some(Map(st.countryPools))
      && Find(e, "default_pools") == Some(List(Strings(st.defaultPools)))
      && Find(e, "description") == Some(Str(st.description))
      && Find(e, "fallback_pool") == Some(Str(st.fallbackPool))
      && Find(e, "location_strategy") == Some(Map(st.locationStrategy))
      && Find(e, "pop_pools") == Some(Map(st.popPools))
      && Find(e, "proxied") == Some(Bool(st.proxied))
      && Find(e, "random_steering") == Some(Map(st.randomSteering))
      && Find(e, "region_pools") == Some(Map(st.regionPools))
  {
    var e := SerializeLoadBalancer(st).entries;
    LoadBalancerKeys(st);
    DistinctKeys();
    FindUnique(e, 0); FindUnique(e, 1); FindUnique(e, 2); FindUnique(e, 3);
    FindUnique(e, 4); FindUnique(e, 5); FindUnique(e, 6); FindUnique(e, 7);
    FindUnique(e, 8); FindUnique(e, 9); FindUnique(e, 10);
  }

  /** Session affinity, steering policy and TTL are stored but never serialised. */
  lemma UnserialisedFields(st: LoadBalancerState, sessionAffinity: string, steeringPolicy: string, ttl: Option<int>)
    ensures SerializeLoadBalancer(st.(sessionAffinity := sessionAffinity, steeringPolicy := steeringPolicy, ttl := ttl))
      == SerializeLoadBalancer(st)
  {
  }

  /** Two configurations that serialise alike agree on every serialised field. */
  lemma {:induction false} SerialisationKeepsFields(a: LoadBalancerState, b: LoadBalancerState)
    requires SerializeLoadBalancer(a) == SerializeLoadBalancer(b)
    ensures a.(sessionAffinity := b.sessionAffinity, steeringPolicy := b.steeringPolicy, ttl := b.ttl) == b
  {
    var ea := SerializeLoadBalancer(a).entries;
    var eb := SerializeLoadBalancer(b).entries;
    assert ea[3] == eb[3];
    assert Strings(a.defaultPools) == Strings(b.defaultPools);
    assert |a.defaultPools| == |b.defaultPools|;
    assert forall i :: 0 <= i < |a.defaultPools| ==> Strings(a.defaultPools)[i] == Strings(b.defaultPools)[i];
    assert a.defaultPools == b.defaultPools;
  }

  class LoadBalancer {
    var state: LoadBalancerState

    constructor(name: string, fallbackPool: string, defaultPools: seq<string>)
      ensures state == Initial(name, fallbackPool, defaultPools)
    {
      state := Initial(name, fallbackPool, defaultPools);
    }

    method IsProxied(proxied: bool)
      modifies this
      ensures state == old(state).(proxied := proxied)
    {
      state := state.(proxied := proxied);
    }

    method IsFailoverAcrossPools(failoverAcrossPools: bool)
      modifies this
      ensures state == old(state).(failoverAcrossPools := failoverAcrossPools)
    {
      state := state.(failoverAcrossPools := failoverAcrossPools);
    }

    /** The pool maps are replaced, never merged. */
    method SetCountryPools(pools: seq<(string, Value)>)
      modifies this
      ensures state == old(state).(countryPools := pools)
    {
      state := state.(countryPools := pools);
    }

    method SetPopPools(pools: seq<(string, Value)>)
      modifies this
      ensures state == old(state).(popPools := pools)
    {
      state := state.(popPools := pools);
    }

    method SetRegionPools(pools: seq<(string, Value)>)
      modifies this
      ensures state == old(state).(regionPools := pools)
    {
      state := state.(regionPools := pools);
    }

    method SetDescription(description: string)
      modifies this
      ensures state == old(state).(description := description)
    {
      state := state.(description := description);
    }

    /** Neither the mode nor the ECS preference is checked against the documented values. */
    method SetLocationStrategy(mode: string, preferEcs: string)
      modifies this
      ensures state == old(state).(locationStrategy := [("mode", Str(mode)), ("prefer_ecs", Str(preferEcs))])
    {
      state := state.(locationStrategy := [("mode", Str(mode)), ("prefer_ecs", Str(preferEcs))]);
    }

    method SetRandomSteering(defaultWeight: int, poolWeights: seq<(string, Value)>)
      modifies this
      ensures state == old(state).(randomSteering := [("default_weight", Int(defaultWeight)), ("pool_weights", Map(poolWeights))])
    {
      state := state.(randomSteering := [("default_weight", Int(defaultWeight)), ("pool_weights", Map(poolWeights))]);
    }

    method SetSessionAffinity(sessionAffinity: string)
      modifies this
      ensures state == old(state).(sessionAffinity := sessionAffinity)
    {
      state := state.(sessionAffinity := sessionAffinity);
    }

    method SetSteeringPolicy(steeringPolicy: string)
      modifies this
      ensures state == old(state).(steeringPolicy := steeringPolicy)
    {
      state := state.(steeringPolicy := steeringPolicy);
    }

    method SetTtl(ttl: int)
      modifies this
      ensures state == old(state).(ttl := Some(ttl))
    {
      state := state.(ttl := Some(ttl));
    }

    function ToArray(): Value
      reads this
    {
      SerializeLoadBalancer(state)
    }
  }
}
