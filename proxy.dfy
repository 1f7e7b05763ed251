/** One relay endpoint and its last observed health (app/proxy.py). */
module ProxyRecord {
  import opened PyValues

  /** The four fields of a Proxy at one moment. */
  datatype ProxyFields = ProxyFields(name: string, url: string, up: Option<bool>, speed: Option<int>)

  /** `f"{up}"` for an optional bool. */
  function ShowUp(up: Option<bool>): string {
    match up
    case None => "None"
    case Some(b) => if b then "True" else "False"
  }

  /** `f"{speed}"` for an optional latency. */
  function ShowSpeed(speed: Option<int>): string {
    match speed
    case None => "None"
    case Some(n) => Decimal(n)
  }

  class Proxy {
    var name: string
    var url: string
    var up: Option<bool>
    var speed: Option<int>

    /** A proxy starts with unknown health: neither up nor speed is set. */
    constructor (name: string, url: string)
      ensures Snapshot() == ProxyFields(name, url, None, None)
    {
      this.name := name;
      this.url := url;
      up := None;
      speed := None;
    }

    function Snapshot(): ProxyFields
      reads this
    {
      ProxyFields(name, url, up, speed)
    }

    /** `str(proxy)`: "Proxy <" then the url, then the health, closed by '>'. */
    function ToString(): (s: string)
      reads this
      ensures |s| > 7 + |url|
      ensures s[..7] == "Proxy <" && s[7..7 + |url|] == url
      ensures s[|s| - 1] == '>'
    {
      var health := " | up:" + ShowUp(up) + " | speed: " + ShowSpeed(speed) + ">";
      assert ("Proxy <" + url + health)[..7 + |url|] == "Proxy <" + url;
      "Proxy <" + url + health
    }

    /** Overwrites every field with those of `other`; the object itself stays the same,
        so every holder of a reference to it sees the new values. */
    method Update(other: Proxy)
      modifies this
      ensures Snapshot() == old(other.Snapshot())
      ensures other != this ==> other.Snapshot() == old(other.Snapshot())
    {
      name := other.name;
      url := other.url;
      up := other.up;
      speed := other.speed;
    }
  }

  /** `Proxy(proxy_dict)`: reads "name", then "url"; a missing key raises KeyError. */
  method FromDict(d: map<string, string>) returns (r: Result<Proxy, PyError>)
    ensures r.Ok? <==> "name" in d && "url" in d
    ensures "name" !in d ==> r == Err(KeyErrorFor("name"))
    ensures "name" in d && "url" !in d ==> r == Err(KeyErrorFor("url"))
    ensures r.Ok? ==> fresh(r.value) && r.value.Snapshot() == ProxyFields(d["name"], d["url"], None, None)
  {
    if "name" !in d {
      return Err(KeyErrorFor("name"));
    }
    if "url" !in d {
      return Err(KeyErrorFor("url"));
    }
    var p := new Proxy(d["name"], d["url"]);
    r := Ok(p);
  }

  /** Updating twice from the same proxy leaves the same state as updating once. */
  method UpdateTwice(p: Proxy, q: Proxy)
    modifies p
    ensures p.Snapshot() == old(q.Snapshot())
    ensures q != p ==> q.Snapshot() == old(q.Snapshot())
  {
    p.Update(q);
    ghost var once := p.Snapshot();
    p.Update(q);
    assert p.Snapshot() == once;
  }
}
