/**
 * The load balancer's cycle state machine: a request counter drives a fixed
 * cycle of `WindowSize + Threshold` requests; at cycle position 1 every down
 * response server is brought back up, at position `WindowSize + 1` one server
 * is chosen by two random draws and taken down, and every request is fanned
 * out to the servers that are up.
 *
 * The remote `setAlive` calls and the fan-out POSTs are modelled by their
 * outcome only (a boolean per call: did the call return without throwing),
 * and the random draws are inputs in [1,5].
 */
module LoadBalancer {
  import opened Draws

  /** Number of requests before one server is shut down. */
  const WindowSize: nat := 20
  /** Number of further requests before the cycle restarts. */
  const Threshold: nat := 60
  const CycleLength: nat := WindowSize + Threshold

  const Url1: string := "http://localhost:8081/response"
  const Url2: string := "http://localhost:8082/response"

  // ---------------------------------------------------------------------------
  // Specification: the abstract state is the request counter and the up-flags
  // of the servers, in list order.
  // ---------------------------------------------------------------------------

  datatype Lb = Lb(total: nat, ups: seq<bool>)

  /** The random and remote inputs one `handleRequest` call consumes. */
  datatype RequestInputs = RequestInputs(
    startOk: seq<bool>,   // outcome of `setAlive?isAlive=true` per server (used only for down servers)
    draw1: int,           // server 1's draw in shutdownOneServer
    draw2: int,           // server 2's draw
    coin: bool,           // nextBoolean() that breaks a tie: true picks server 1
    shutdownOk: bool,     // outcome of `setAlive?isAlive=false` on the chosen server
    sendOk: seq<bool>)    // outcome of the fan-out POST per server (used only for up servers)

  predicate InputsFit(inp: RequestInputs) {
    && |inp.startOk| == 2
    && |inp.sendOk| == 2
    && InDrawRange(inp.draw1)
    && InDrawRange(inp.draw2)
  }

  function CyclePosition(count: nat): (p: nat)
    ensures p < CycleLength
  {
    count % CycleLength
  }

  /** Does the request numbered `count` start a cycle (bring the servers up)? */
  predicate StartsCycle(count: nat) {
    CyclePosition(count) == 1
  }

  /** Does the request numbered `count` shut one server down? */
  predicate ShutsDown(count: nat) {
    CyclePosition(count) == WindowSize + 1
  }

  lemma CycleActions(count: nat)
    ensures StartsCycle(count) <==> count % 80 == 1
    ensures ShutsDown(count) <==> count % 80 == 21
    ensures !(StartsCycle(count) && ShutsDown(count))
  {
  }

  /** Index (0 for server 1, 1 for server 2) of the server shutdownOneServer picks:
      the strictly greater draw loses, a tie is settled by the coin. */
  function Victim(draw1: int, draw2: int, coin: bool): (v: nat)
    ensures v < 2
    ensures draw1 > draw2 ==> v == 0
    ensures draw2 > draw1 ==> v == 1
  {
    if draw1 > draw2 then 0
    else if draw2 > draw1 then 1
    else if coin then 0 else 1
  }

  /** On a tie either server may go down, depending on the coin. */
  lemma TieEitherServer(d: int)
    ensures {Victim(d, d, true), Victim(d, d, false)} == {0, 1}
  {
  }

  /** startNewServers: a down server comes up exactly when its remote call succeeds. */
  function StartAll(ups: seq<bool>, ok: seq<bool>): (r: seq<bool>)
    requires |ok| == |ups|
    ensures |r| == |ups|
    ensures forall i :: 0 <= i < |ups| ==> r[i] == (ups[i] || ok[i])
  {
    if ups == [] then [] else [ups[0] || ok[0]] + StartAll(ups[1..], ok[1..])
  }

  /** shutdownOneServer once the victim is known: an up victim goes down when
      the remote call succeeds; nothing else changes. */
  function ShutDown(ups: seq<bool>, victim: nat, ok: bool): (r: seq<bool>)
    requires victim < |ups|
    ensures |r| == |ups|
    ensures r[victim] == (ups[victim] && !ok)
    ensures forall i :: 0 <= i < |ups| && i != victim ==> r[i] == ups[i]
  {
    if ups[victim] && ok then ups[victim := false] else ups
  }

  /** The servers sendRequestToServers posts to, in list order. */
  function UpIndices(ups: seq<bool>): (r: seq<nat>)
    ensures forall k: nat :: k in r <==> k < |ups| && ups[k]
    ensures forall j, k :: 0 <= j < k < |r| ==> r[j] < r[k]
  {
    if ups == [] then []
    else
      var prefix := ups[..|ups| - 1];
      var front := UpIndices(prefix);
      assert forall k :: 0 <= k < |prefix| ==> prefix[k] == ups[k];
      assert forall j :: 0 <= j < |front| ==> front[j] < |prefix| by {
        forall j | 0 <= j < |front|
          ensures front[j] < |prefix|
        {
          assert front[j] in front;
        }
      }
      front + (if ups[|ups| - 1] then [|ups| - 1] else [])
  }

  /** Of the servers posted to, those whose POST went through: per server, up and delivered. */
  function Reached(ups: seq<bool>, sendOk: seq<bool>): (r: seq<bool>)
    requires |sendOk| == |ups|
    ensures |r| == |ups| && forall k :: 0 <= k < |ups| ==> r[k] == (ups[k] && sendOk[k])
  {
    seq(|ups|, k requires 0 <= k < |ups| => ups[k] && sendOk[k])
  }

  /** handleRequest on the abstract state. */
  function Step(s: Lb, inp: RequestInputs): (r: Lb)
    requires |s.ups| == 2 && InputsFit(inp)
    ensures r.total == s.total + 1 && |r.ups| == 2
    // a flag rises only at a cycle start, for a server whose setAlive call succeeded
    ensures forall i :: 0 <= i < 2 && r.ups[i] && !s.ups[i] ==> StartsCycle(r.total) && inp.startOk[i]
    // a flag falls only at the shutdown position, for the chosen server, when its call succeeded
    ensures forall i :: 0 <= i < 2 && !r.ups[i] && s.ups[i] ==>
              ShutsDown(r.total) && i == Victim(inp.draw1, inp.draw2, inp.coin) && inp.shutdownOk
    ensures StartsCycle(r.total) ==> forall i :: 0 <= i < 2 ==> r.ups[i] == (s.ups[i] || inp.startOk[i])
    // at the shutdown position the chosen server goes down iff it was up and its call succeeded
    ensures ShutsDown(r.total) ==>
              var v := Victim(inp.draw1, inp.draw2, inp.coin);
              r.ups[v] == (s.ups[v] && !inp.shutdownOk) && r.ups[1 - v] == s.ups[1 - v]
  {
    var count := s.total + 1;
    var ups1 := if StartsCycle(count) then StartAll(s.ups, inp.startOk) else s.ups;
    var ups2 := if ShutsDown(count) then ShutDown(ups1, Victim(inp.draw1, inp.draw2, inp.coin), inp.shutdownOk)
                else ups1;
    Lb(count, ups2)
  }

  predicate AllFit(ins: seq<RequestInputs>) {
    forall k :: 0 <= k < |ins| ==> InputsFit(ins[k])
  }

  /** A run of consecutive handleRequest calls. */
  function Run(s: Lb, ins: seq<RequestInputs>): (r: Lb)
    requires |s.ups| == 2 && AllFit(ins)
    ensures r.total == s.total + |ins| && |r.ups| == 2
    decreases |ins|
  {
    if ins == [] then s else Run(Step(s, ins[0]), ins[1..])
  }

  /** A down server stays down for as long as no request starts a cycle. */
  lemma {:induction false} DownStaysDownUntilCycleStart(s: Lb, ins: seq<RequestInputs>, i: nat)
    requires |s.ups| == 2 && AllFit(ins) && i < 2 && !s.ups[i]
    requires forall c: nat :: s.total < c <= s.total + |ins| ==> !StartsCycle(c)
    ensures !Run(s, ins).ups[i]
    decreases |ins|
  {
    if ins != [] {
      var s1 := Step(s, ins[0]);
      assert !StartsCycle(s1.total);
      DownStaysDownUntilCycleStart(s1, ins[1..], i);
    }
  }

  /** An up server stays up for as long as no request reaches the shutdown position. */
  lemma {:induction false} UpStaysUpUntilShutdown(s: Lb, ins: seq<RequestInputs>, i: nat)
    requires |s.ups| == 2 && AllFit(ins) && i < 2 && s.ups[i]
    requires forall c: nat :: s.total < c <= s.total + |ins| ==> !ShutsDown(c)
    ensures Run(s, ins).ups[i]
    decreases |ins|
  {
    if ins != [] {
      var s1 := Step(s, ins[0]);
      assert !ShutsDown(s1.total);
      UpStaysUpUntilShutdown(s1, ins[1..], i);
    }
  }

  /** No request from cycle position 2 up to the end of the cycle starts a cycle. */
  lemma NoStartBeforeCycleEnd(total: nat, n: nat)
    requires CyclePosition(total) >= 2 && n <= CycleLength - CyclePosition(total)
    ensures forall c: nat :: total < c <= total + n ==> !StartsCycle(c)
  {
    var q := total / CycleLength;
    var p := total % CycleLength;
    assert total == q * CycleLength + p;
    forall c: nat | total < c <= total + n
      ensures !StartsCycle(c)
    {
      var j := c - q * CycleLength;
      assert p < j <= CycleLength;
      if j < CycleLength {
        assert c % CycleLength == j;
      } else {
        assert c == (q + 1) * CycleLength;
        assert c % CycleLength == 0;
      }
    }
  }

  /** A server shut down mid-cycle stays down until the cycle ends. */
  lemma DownForRestOfCycle(s: Lb, ins: seq<RequestInputs>, i: nat)
    requires |s.ups| == 2 && AllFit(ins) && i < 2 && !s.ups[i]
    requires CyclePosition(s.total) >= 2 && |ins| <= CycleLength - CyclePosition(s.total)
    ensures !Run(s, ins).ups[i]
  {
    NoStartBeforeCycleEnd(s.total, |ins|);
    DownStaysDownUntilCycleStart(s, ins, i);
  }

  /** With both servers up, the 21st request of a cycle with draws 4 and 2 takes
      down server 1 (the one that drew 4) and leaves server 2 up. */
  lemma ShutdownScenario(inp: RequestInputs)
    requires InputsFit(inp) && inp.draw1 == 4 && inp.draw2 == 2 && inp.shutdownOk
    ensures Step(Lb(20, [true, true]), inp).ups == [false, true]
  {
  }

  // ---------------------------------------------------------------------------
  // Implementation: the service object and its list of server objects.
  // ---------------------------------------------------------------------------

  class ResponseServer {
    const url: string
    var isUp: bool

    constructor (url: string, isUp: bool)
      ensures this.url == url && this.isUp == isUp
    {
      this.url := url;
      this.isUp := isUp;
    }
  }

  class LoadBalancerService {
    var totalRequests: nat
    const servers: seq<ResponseServer>

    /** Exactly two distinct servers with their fixed URLs; only `isUp` ever changes. */
    ghost predicate Valid() {
      && |servers| == 2
      && servers[0] != servers[1]
      && servers[0].url == Url1
      && servers[1].url == Url2
    }

    ghost function Ups(): (r: seq<bool>)
      requires Valid()
      reads servers
      ensures |r| == |servers| && forall i :: 0 <= i < |servers| ==> r[i] == servers[i].isUp
    {
      [servers[0].isUp, servers[1].isUp]
    }

    ghost function Model(): Lb
      requires Valid()
      reads this, servers
    {
      Lb(totalRequests, Ups())
    }

    constructor ()
      ensures Valid() && fresh(servers[0]) && fresh(servers[1])
      ensures Model() == Lb(0, [true, true])
    {
      var s1 := new ResponseServer(Url1, true);
      var s2 := new ResponseServer(Url2, true);
      servers := [s1, s2];
      totalRequests := 0;
    }

    method HandleRequest(inp: RequestInputs) returns (attempted: seq<nat>, delivered: seq<nat>)
      requires Valid() && InputsFit(inp)
      modifies this, servers
      ensures Valid()
      ensures Model() == Step(old(Model()), inp)
      ensures attempted == UpIndices(Ups())
      ensures delivered == UpIndices(Reached(Ups(), inp.sendOk))
    {
      ghost var before := Model();
      totalRequests := totalRequests + 1;
      var currentRequestCount := totalRequests;
      var cycleLength := WindowSize + Threshold;
      var cyclePosition := currentRequestCount % cycleLength;
      assert cyclePosition == CyclePosition(currentRequestCount);
      if cyclePosition == 1 {
        StartNewServers(inp.startOk);
      }
      ghost var ups1 := Ups();
      assert ups1 == if StartsCycle(currentRequestCount) then StartAll(before.ups, inp.startOk) else before.ups;
      if cyclePosition == WindowSize + 1 {
        ShutdownOneServer(inp.draw1, inp.draw2, inp.coin, inp.shutdownOk);
      }
      assert Ups() == if ShutsDown(currentRequestCount)
                      then ShutDown(ups1, Victim(inp.draw1, inp.draw2, inp.coin), inp.shutdownOk)
                      else ups1;
      attempted, delivered := SendRequestToServers(inp.sendOk);
    }

    /** Posts to every up server; a failed POST does not stop the others, and
        no flag changes. */
    method SendRequestToServers(sendOk: seq<bool>) returns (attempted: seq<nat>, delivered: seq<nat>)
      requires Valid() && |sendOk| == |servers|
      ensures attempted == UpIndices(Ups())
      ensures delivered == UpIndices(Reached(Ups(), sendOk))
    {
      attempted, delivered := [], [];
      ghost var ups := Ups();
      ghost var reached := Reached(ups, sendOk);
      for i := 0 to |servers|
        invariant attempted == UpIndices(ups[..i])
        invariant delivered == UpIndices(reached[..i])
      {
        UpIndicesSnoc(ups, i);
        UpIndicesSnoc(reached, i);
        assert servers[i].isUp == ups[i];
        if servers[i].isUp {
          attempted := attempted + [i];
          if sendOk[i] {
            delivered := delivered + [i];
          }
        }
      }
      assert ups[..|servers|] == ups;
      assert reached[..|servers|] == reached;
    }

    method ShutdownOneServer(draw1: int, draw2: int, coin: bool, ok: bool)
      requires Valid() && InDrawRange(draw1) && InDrawRange(draw2)
      modifies servers
      ensures Valid()
      ensures Ups() == ShutDown(old(Ups()), Victim(draw1, draw2, coin), ok)
    {
      var server1 := servers[0];
      var server2 := servers[1];
      var serverToShutdown;
      if draw1 > draw2 {
        serverToShutdown := server1;
      } else if draw2 > draw1 {
        serverToShutdown := server2;
      } else {
        serverToShutdown := if coin then server1 else server2;
      }
      if serverToShutdown.isUp {
        if ok {
          serverToShutdown.isUp := false;
        }
      }
    }

    method StartNewServers(ok: seq<bool>)
      requires Valid() && |ok| == |servers|
      modifies servers
      ensures Valid()
      ensures Ups() == StartAll(old(Ups()), ok)
    {
      for i := 0 to |servers|
        invariant forall k :: 0 <= k < i ==> servers[k].isUp == (old(servers[k].isUp) || ok[k])
        invariant forall k :: i <= k < |servers| ==> servers[k].isUp == old(servers[k].isUp)
      {
        var server := servers[i];
        if !server.isUp {
          if ok[i] {
            server.isUp := true;
          }
        }
      }
    }
  }

  lemma UpIndicesSnoc(ups: seq<bool>, i: nat)
    requires i < |ups|
    ensures UpIndices(ups[..i + 1]) == UpIndices(ups[..i]) + (if ups[i] then [i] else [])
  {
    assert ups[..i + 1][..i] == ups[..i];
  }
}
