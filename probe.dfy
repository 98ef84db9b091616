/** The health probe's interpretation of the gateway controller's replies
    (`check_wan1_status`, identical in src/monitor_wan1.py and
    monitor_wan1.py). The HTTP requests themselves are not modelled: each
    reply is an input, `None` when the request failed, timed out or did not
    decode, all of which the probe turns into "offline". */
module Probe {
  import opened Wrappers

  /** One `portStats` entry; a key absent from the JSON object is `None`. */
  datatype PortStat = PortStat(kind: Option<int>, port: Option<int>, internetState: Option<int>)

  /** The login reply. `omadacId` and `token` are `None` when absent, also
      when the whole `result` object is absent or null. */
  datatype LoginReply = LoginReply(errorCode: Option<int>, omadacId: Option<string>, token: Option<string>)

  /** The gateway reply; `portStats` is empty when it or `result` is absent. */
  datatype GatewayReply = GatewayReply(errorCode: Option<int>, portStats: seq<PortStat>)

  /** Python truthiness of an optional string field. */
  predicate Truthy(v: Option<string>)
  {
    v.Some? && v.value != ""
  }

  /** The login succeeded and handed out both a controller id and a token. */
  predicate LoginAccepted(login: Option<LoginReply>)
  {
    login.Some? && login.value.errorCode == Some(0) && Truthy(login.value.omadacId) && Truthy(login.value.token)
  }

  predicate GatewayAccepted(gateway: Option<GatewayReply>)
  {
    gateway.Some? && gateway.value.errorCode == Some(0)
  }

  /** The entry for the WAN1 port: type 0, port 1. */
  predicate IsWan1(p: PortStat)
  {
    p.kind == Some(0) && p.port == Some(1)
  }

  /** Entry `i` is the first WAN1 entry of the list. */
  ghost predicate FirstWan1At(ps: seq<PortStat>, i: int)
  {
    0 <= i < |ps| && IsWan1(ps[i]) && forall j :: 0 <= j < i ==> !IsWan1(ps[j])
  }

  /** The port list says WAN1 has internet: its first WAN1 entry has
      `internetState` 1. */
  ghost predicate Wan1Up(ps: seq<PortStat>)
  {
    exists i :: FirstWan1At(ps, i) && ps[i].internetState == Some(1)
  }

  /** The probe: online only when the login is accepted with both ids, the
      gateway reply is accepted, and the first WAN1 entry reports internet. */
  method CheckWan1Status(login: Option<LoginReply>, gateway: Option<GatewayReply>) returns (online: bool)
    ensures online <==> LoginAccepted(login) && GatewayAccepted(gateway) && Wan1Up(gateway.value.portStats)
  {
    online := false;
    if login.None? {
      return;
    }
    var reply := login.value;
    if reply.errorCode == Some(0) {
      if !Truthy(reply.omadacId) || !Truthy(reply.token) {
        return;
      }
      if gateway.None? {
        return;
      }
      var g := gateway.value;
      if g.errorCode == Some(0) {
        var ps := g.portStats;
        for i := 0 to |ps|
          invariant forall j :: 0 <= j < i ==> !IsWan1(ps[j])
        {
          if IsWan1(ps[i]) {
            assert FirstWan1At(ps, i);
            online := ps[i].internetState == Some(1);
            if !online {
              FirstWan1Unique(ps, i);
            }
            return;
          }
        }
        NoWan1Entry(ps);
      }
    }
  }

  /** The first WAN1 entry is unique. */
  lemma FirstWan1Unique(ps: seq<PortStat>, i: int)
    requires FirstWan1At(ps, i)
    ensures forall k :: FirstWan1At(ps, k) ==> k == i
  {
  }

  /** Without a WAN1 entry the port list never says WAN1 is up. */
  lemma NoWan1Entry(ps: seq<PortStat>)
    requires forall j :: 0 <= j < |ps| ==> !IsWan1(ps[j])
    ensures !Wan1Up(ps)
  {
  }

  /** Entries after the first WAN1 entry are ignored: appending any entries
      to a list that already has one does not change the verdict. */
  lemma LaterEntriesIgnored(ps: seq<PortStat>, more: seq<PortStat>, i: int)
    requires FirstWan1At(ps, i)
    ensures Wan1Up(ps + more) <==> Wan1Up(ps)
    ensures Wan1Up(ps) <==> ps[i].internetState == Some(1)
  {
    var qs := ps + more;
    assert FirstWan1At(qs, i) by {
      forall j | 0 <= j < i ensures !IsWan1(qs[j]) { assert qs[j] == ps[j]; }
    }
    FirstWan1Unique(ps, i);
    FirstWan1Unique(qs, i);
  }
}
