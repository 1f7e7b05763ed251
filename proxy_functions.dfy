/** The process-wide proxy state and the health-probe cycle (app/proxy_functions.py).
    UP_PROXIES and FASTEST_PROXY are the two fields of one ProxyRegistry object. */
module ProxyFunctions {
  import opened PyValues
  import opened ProxyRecord

  /** What one `GET {url}/healthcheck` produced: a response, or an exception. */
  datatype ProbeOutcome = Response(status: int, elapsed: int) | ProbeError(message: string)

  predicate IsUp(o: ProbeOutcome) { o.Response? && o.status == 200 }

  function UpAfter(o: ProbeOutcome): Option<bool> { Some(IsUp(o)) }

  function SpeedAfter(o: ProbeOutcome): Option<int> { if IsUp(o) then Some(o.elapsed) else None }

  /** Index `i` is where `sorted(xs, key=speed)[0]` comes from: every other element
      has a known speed no smaller, and every earlier one a strictly larger speed
      (the sort is stable, so ties go to the earliest). */
  ghost predicate StableMinAt(speeds: seq<Option<int>>, i: int) {
    && 0 <= i < |speeds|
    && forall j :: 0 <= j < |speeds| && j != i ==>
         && speeds[i].Some? && speeds[j].Some?
         && speeds[i].value <= speeds[j].value
         && (j < i ==> speeds[i].value < speeds[j].value)
  }

  lemma StableMinAgainst(speeds: seq<Option<int>>, i: int, j: int)
    requires StableMinAt(speeds, i) && 0 <= j < |speeds| && j != i
    ensures speeds[i].Some? && speeds[j].Some? && speeds[i].value <= speeds[j].value
    ensures j < i ==> speeds[i].value < speeds[j].value
  {
  }

  /** At most one index is the stable minimum. */
  lemma StableMinUnique(speeds: seq<Option<int>>, i: int, k: int)
    requires StableMinAt(speeds, i) && StableMinAt(speeds, k)
    ensures i == k
  {
    if i != k {
      StableMinAgainst(speeds, i, k);
      StableMinAgainst(speeds, k, i);
    }
  }

  predicate AllKnown(speeds: seq<Option<int>>) {
    forall j :: 0 <= j < |speeds| ==> speeds[j].Some?
  }

  /** Earliest index of a minimal speed. */
  function EarliestMin(speeds: seq<Option<int>>): (i: nat)
    requires |speeds| > 0 && AllKnown(speeds)
    ensures StableMinAt(speeds, i)
  {
    if |speeds| == 1 then 0
    else
      var k := EarliestMin(speeds[..|speeds| - 1]);
      if speeds[|speeds| - 1].value < speeds[k].value then |speeds| - 1 else k
  }

  /** `sorted(speeds)[0]` as an index: IndexError on an empty list; with two or more
      elements every one is compared, so an unknown speed raises TypeError;
      a single element is returned without any comparison. */
  function FastestIndex(speeds: seq<Option<int>>): (r: Result<nat, PyError>)
    ensures speeds == [] ==> r == Err(PyError(IndexError, "list index out of range"))
    ensures r.Err? <==> speeds == [] || (|speeds| >= 2 && !AllKnown(speeds))
    ensures r.Err? && speeds != [] ==> r.error.kind == TypeError
    ensures r.Ok? ==> StableMinAt(speeds, r.value)
  {
    if speeds == [] then Err(PyError(IndexError, "list index out of range"))
    else if |speeds| == 1 then Ok(0)
    else if !AllKnown(speeds) then Err(PyError(TypeError, "'<' not supported between instances of 'NoneType' and 'float'"))
    else Ok(EarliestMin(speeds))
  }

  /** The current speed of each proxy, in list order. */
  function SpeedsOf(ps: seq<Proxy>): (r: seq<Option<int>>)
    reads set p | p in ps
    ensures |r| == |ps| && forall i :: 0 <= i < |ps| ==> r[i] == ps[i].speed
  {
    if ps == [] then [] else SpeedsOf(ps[..|ps| - 1]) + [ps[|ps| - 1].speed]
  }

  /** `get_fastest_proxy` over a given list. */
  function FastestOf(ps: seq<Proxy>): (r: Result<Proxy, PyError>)
    reads set p | p in ps
    ensures ps == [] ==> r == Err(PyError(IndexError, "list index out of range"))
    ensures r.Err? <==> FastestIndex(SpeedsOf(ps)).Err?
    ensures r.Ok? ==> exists i :: 0 <= i < |ps| && ps[i] == r.value && StableMinAt(SpeedsOf(ps), i)
  {
    match FastestIndex(SpeedsOf(ps))
    case Ok(i) => Ok(ps[i])
    case Err(e) => Err(e)
  }

  /** `list.remove(x)`: drops the first element that IS `x` (Proxy has no __eq__,
      so list membership is by identity). */
  function RemoveFirst(s: seq<Proxy>, x: Proxy): (r: seq<Proxy>)
    ensures x !in s ==> r == s
    ensures x in s ==> |r| == |s| - 1
  {
    if s == [] then []
    else if s[0] == x then s[1..]
    else [s[0]] + RemoveFirst(s[1..], x)
  }

  /** The position of the first element that is `x`. */
  ghost function FirstIndex(s: seq<Proxy>, x: Proxy): (i: nat)
    requires x in s
    ensures i < |s| && s[i] == x && x !in s[..i]
  {
    if s[0] == x then 0
    else
      var j := FirstIndex(s[1..], x);
      assert s[..j + 1] == [s[0]] + s[1..][..j];
      j + 1
  }

  /** Removing `x` whose first occurrence is at `i` cuts out exactly position `i`. */
  lemma {:induction false} RemoveFirstAt(s: seq<Proxy>, x: Proxy, i: nat)
    requires i < |s| && s[i] == x && x !in s[..i]
    ensures RemoveFirst(s, x) == s[..i] + s[i + 1..]
  {
    if i > 0 {
      assert s[0] in s[..i];
      assert s[1..][..i - 1] == s[..i][1..];
      RemoveFirstAt(s[1..], x, i - 1);
      assert s[..i] == [s[0]] + s[1..][..i - 1];
      assert s[i + 1..] == s[1..][i..];
    }
  }

  lemma RemoveFirstSplits(s: seq<Proxy>, x: Proxy)
    requires x in s
    ensures exists i :: 0 <= i < |s| && s[i] == x && x !in s[..i] && RemoveFirst(s, x) == s[..i] + s[i + 1..]
  {
    var i := FirstIndex(s, x);
    RemoveFirstAt(s, x, i);
  }

  /** The proxies whose probe answered 200, in probe order. */
  function Survivors(cs: seq<Proxy>, os: seq<ProbeOutcome>): seq<Proxy>
    requires |cs| == |os|
  {
    if cs == [] then []
    else Survivors(cs[..|cs| - 1], os[..|os| - 1]) + (if IsUp(os[|os| - 1]) then [cs[|cs| - 1]] else [])
  }

  /** One more probe appends its proxy to the survivors exactly when it answered 200. */
  lemma SurvivorsStep(cs: seq<Proxy>, os: seq<ProbeOutcome>, k: nat)
    requires |cs| == |os| && k < |cs|
    ensures Survivors(cs[..k + 1], os[..k + 1]) == Survivors(cs[..k], os[..k]) + (if IsUp(os[k]) then [cs[k]] else [])
  {
    assert cs[..k + 1][..k] == cs[..k];
    assert os[..k + 1][..k] == os[..k];
  }

  /** A proxy survives exactly when one of its probes answered 200. */
  lemma {:induction false} SurvivorsMembership(cs: seq<Proxy>, os: seq<ProbeOutcome>, p: Proxy)
    requires |cs| == |os|
    ensures p in Survivors(cs, os) <==> exists i :: 0 <= i < |cs| && cs[i] == p && IsUp(os[i])
  {
    if cs != [] {
      var n := |cs| - 1;
      SurvivorsMembership(cs[..n], os[..n], p);
      if exists i :: 0 <= i < |cs| && cs[i] == p && IsUp(os[i]) {
        var i :| 0 <= i < |cs| && cs[i] == p && IsUp(os[i]);
        if i < n {
          assert cs[..n][i] == p && os[..n][i] == os[i];
        }
      }
    }
  }

  /** FASTEST_PROXY is never a probe candidate built by `get_proxies_from_file` (those
      are new objects), so it never enters UP_PROXIES. */
  lemma {:induction false} OnlyCandidatesSurvive(cs: seq<Proxy>, os: seq<ProbeOutcome>, p: Proxy)
    requires |cs| == |os| && p !in cs
    ensures p !in Survivors(cs, os)
  {
    SurvivorsMembership(cs, os, p);
  }

  /** The loop of `get_proxies_from_file` over the decoded "proxy_list": one new Proxy
      per entry, in order; the first entry lacking "name" or "url" raises KeyError. */
  method ProxiesFromEntries(entries: seq<map<string, string>>) returns (r: Result<seq<Proxy>, PyError>)
    ensures r.Ok? <==> forall i :: 0 <= i < |entries| ==> "name" in entries[i] && "url" in entries[i]
    ensures r.Ok? ==> |r.value| == |entries|
    ensures r.Ok? ==> forall i :: 0 <= i < |entries| ==>
      fresh(r.value[i]) && r.value[i].Snapshot() == ProxyFields(entries[i]["name"], entries[i]["url"], None, None)
    ensures r.Ok? ==> forall i, j :: 0 <= i < j < |r.value| ==> r.value[i] != r.value[j]
    ensures r.Err? ==> exists i ::
      && 0 <= i < |entries|
      && (forall h :: 0 <= h < i ==> "name" in entries[h] && "url" in entries[h])
      && r.error == KeyErrorFor(if "name" !in entries[i] then "name" else "url")
      && ("name" !in entries[i] || "url" !in entries[i])
  {
    var list: seq<Proxy> := [];
    var k := 0;
    while k < |entries|
      invariant 0 <= k <= |entries| && |list| == k
      invariant forall i :: 0 <= i < k ==> "name" in entries[i] && "url" in entries[i]
      invariant forall i :: 0 <= i < k ==>
        fresh(list[i]) && list[i].Snapshot() == ProxyFields(entries[i]["name"], entries[i]["url"], None, None)
      invariant forall i, j :: 0 <= i < j < k ==> list[i] != list[j]
    {
      var p := FromDict(entries[k]);
      if p.Err? {
        return Err(p.error);
      }
      list := list + [p.value];
      k := k + 1;
    }
    r := Ok(list);
  }

  class ProxyRegistry {
    /** UP_PROXIES */
    var upProxies: seq<Proxy>
    /** FASTEST_PROXY: never rebound, only updated in place. */
    const fastest: Proxy

    /** Module start-up: no live proxies, and a fastest proxy named "default proxy"
        pointing at the configured default, with unknown health. */
    constructor (defaultProxy: string)
      ensures upProxies == [] && fresh(fastest)
      ensures fastest.Snapshot() == ProxyFields("default proxy", defaultProxy, None, None)
    {
      upProxies := [];
      fastest := new Proxy("default proxy", defaultProxy);
    }

    /** `get_fastest_proxy()` */
    function GetFastest(): (r: Result<Proxy, PyError>)
      reads this, set p | p in upProxies
      ensures upProxies == [] ==> r == Err(PyError(IndexError, "list index out of range"))
      ensures r.Ok? ==> r.value in upProxies
      ensures r.Ok? ==> exists i :: 0 <= i < |upProxies| && upProxies[i] == r.value && StableMinAt(SpeedsOf(upProxies), i)
    {
      FastestOf(upProxies)
    }

    /** `set_fastest_proxy()`: copies the fastest live proxy into FASTEST_PROXY;
        UP_PROXIES is left as it is; an empty list raises and changes nothing. */
    method SetFastest() returns (r: Outcome<PyError>)
      modifies fastest
      ensures upProxies == old(upProxies)
      ensures old(GetFastest()).Ok? ==> r == Pass && fastest.Snapshot() == old(GetFastest().value.Snapshot())
      ensures old(GetFastest()).Err? ==> r == Fail(old(GetFastest()).error) && fastest.Snapshot() == old(fastest.Snapshot())
    {
      var best := FastestOf(upProxies);
      match best {
        case Ok(p) =>
          fastest.Update(p);
          r := Pass;
        case Err(e) =>
          r := Fail(e);
      }
    }

    /** `update_fastest_proxy()`: removes the FASTEST_PROXY object itself from UP_PROXIES
        (ValueError if that object is not in the list, nothing changed), then copies the
        fastest of the remaining ones into it; if that lookup raises, the removal stays. */
    method UpdateFastest() returns (r: Outcome<PyError>)
      modifies this, fastest
      ensures fastest !in old(upProxies) ==>
        && r == Fail(PyError(ValueError, "list.remove(x): x not in list"))
        && upProxies == old(upProxies)
        && fastest.Snapshot() == old(fastest.Snapshot())
      ensures fastest in old(upProxies) ==> upProxies == RemoveFirst(old(upProxies), fastest)
      ensures fastest in old(upProxies) && old(FastestOf(RemoveFirst(upProxies, fastest))).Ok? ==>
        r == Pass && fastest.Snapshot() == old(FastestOf(RemoveFirst(upProxies, fastest)).value.Snapshot())
      ensures fastest in old(upProxies) && old(FastestOf(RemoveFirst(upProxies, fastest))).Err? ==>
        r == Fail(old(FastestOf(RemoveFirst(upProxies, fastest))).error) && fastest.Snapshot() == old(fastest.Snapshot())
    {
      if fastest !in upProxies {
        return Fail(PyError(ValueError, "list.remove(x): x not in list"));
      }
      ghost var next := FastestOf(RemoveFirst(upProxies, fastest));
      upProxies := RemoveFirst(upProxies, fastest);
      assert GetFastest() == next;
      r := SetFastest();
    }

    /** `get_async_healthcheck(proxy)`: on 200 the proxy is up with the elapsed time as
        its speed and is appended to UP_PROXIES; any other status or any exception marks
        it down with no speed and never propagates. */
    method Healthcheck(p: Proxy, outcome: ProbeOutcome)
      modifies this, p
      ensures p.Snapshot() == ProxyFields(old(p.name), old(p.url), UpAfter(outcome), SpeedAfter(outcome))
      ensures upProxies == old(upProxies) + (if IsUp(outcome) then [p] else [])
    {
      match outcome {
        case Response(status, elapsed) =>
          if status == 200 {
            p.up := Some(true);
            p.speed := Some(elapsed);
            upProxies := upProxies + [p];
          } else {
            p.up := Some(false);
            p.speed := None;
          }
        case ProbeError(_) =>
          p.up := Some(false);
          p.speed := None;
      }
    }

    /** Probe number `k` of a cycle: after it the first k+1 probes are accounted for. */
    method ProbeStep(candidates: seq<Proxy>, outcomes: seq<ProbeOutcome>, k: nat)
      requires |outcomes| == |candidates| && k < |candidates|
      requires upProxies == Survivors(candidates[..k], outcomes[..k])
      requires forall i :: 0 <= i < k && (forall j :: i < j < k ==> candidates[j] != candidates[i]) ==>
        candidates[i].up == UpAfter(outcomes[i]) && candidates[i].speed == SpeedAfter(outcomes[i])
      modifies this, candidates[k]
      ensures upProxies == Survivors(candidates[..k + 1], outcomes[..k + 1])
      ensures forall i :: 0 <= i < k + 1 && (forall j :: i < j < k + 1 ==> candidates[j] != candidates[i]) ==>
        candidates[i].up == UpAfter(outcomes[i]) && candidates[i].speed == SpeedAfter(outcomes[i])
      ensures candidates[k].name == old(candidates[k].name) && candidates[k].url == old(candidates[k].url)
    {
      var p := candidates[k];
      Healthcheck(p, outcomes[k]);
      SurvivorsStep(candidates, outcomes, k);
      forall i | 0 <= i < k + 1 && (forall j :: i < j < k + 1 ==> candidates[j] != candidates[i])
        ensures candidates[i].up == UpAfter(outcomes[i]) && candidates[i].speed == SpeedAfter(outcomes[i])
      {
        if i < k {
          assert candidates[i] != p;
        }
      }
    }

    /** `set_proxies_async(candidates)`, with the probes run one after another in
        completion order: UP_PROXIES is cleared and then holds exactly the candidates
        whose probe answered 200; each candidate keeps the result of its last probe. */
    method ProbeCycle(candidates: seq<Proxy>, outcomes: seq<ProbeOutcome>)
      requires |outcomes| == |candidates|
      modifies this, set p | p in candidates
      ensures upProxies == Survivors(candidates, outcomes)
      ensures forall p :: p in upProxies <==> exists i :: 0 <= i < |candidates| && candidates[i] == p && IsUp(outcomes[i])
      ensures forall i :: 0 <= i < |candidates| && (forall j :: i < j < |candidates| ==> candidates[j] != candidates[i]) ==>
        candidates[i].Snapshot() == ProxyFields(old(candidates[i].name), old(candidates[i].url), UpAfter(outcomes[i]), SpeedAfter(outcomes[i]))
      ensures forall p :: p in candidates ==> p.name == old(p.name) && p.url == old(p.url)
    {
      upProxies := [];
      var k := 0;
      while k < |candidates|
        invariant 0 <= k <= |candidates|
        invariant upProxies == Survivors(candidates[..k], outcomes[..k])
        invariant forall i :: 0 <= i < k && (forall j :: i < j < k ==> candidates[j] != candidates[i]) ==>
          candidates[i].up == UpAfter(outcomes[i]) && candidates[i].speed == SpeedAfter(outcomes[i])
        invariant forall p :: p in candidates ==> p.name == old(p.name) && p.url == old(p.url)
      {
        ProbeStep(candidates, outcomes, k);
        k := k + 1;
      }
      assert candidates[..k] == candidates && outcomes[..k] == outcomes;
      forall p
        ensures p in upProxies <==> exists i :: 0 <= i < |candidates| && candidates[i] == p && IsUp(outcomes[i])
      {
        SurvivorsMembership(candidates, outcomes, p);
      }
    }
  }
}
