/** The request dispatcher of the bridge and its response cache (agentloopgate/bridge/service.py,
    handle). */
module RequestCache {
  import opened Common

  /** A request, standing for its own digest. */
  datatype Request = Request(id: string, verb: string, payload: string)

  datatype Response = Response(id: string, ok: bool, code: string, body: string)

  datatype Stored = Stored(request: Request, response: Response)

  const HANDLED: set<string> := {
    "health", "contract.validate", "candidate.check", "decision.explain", "events.ingest", "trace.sync", "trace.verify"
  }

  const FORBIDDEN: set<string> := {
    "final.read", "gate.modify", "shell.exec", "snapshot.promote", "snapshot.rollback", "split.modify"
  }

  predicate Forbidden(verb: string) { verb in FORBIDDEN || "propose." <= verb }

  /** The stored responses and the requests that reached a handler, in order. */
  datatype Bridge = Bridge(cache: map<string, Stored>, executed: seq<Request>)

  const EMPTY := Bridge(map[], [])

  function Refusal(id: string, code: string): (r: Response) { Response(id, false, code, "") }

  /** One call: what the handler would answer, and whether the process dies before the response is
      stored. */
  datatype Call = Call(request: Request, answer: Response, dies: bool)

  predicate Reaches(s: Bridge, q: Request) {
    q.id !in s.cache && !Forbidden(q.verb) && q.verb in HANDLED
  }

  function FreshResponse(c: Call): (r: Response) {
    if Forbidden(c.request.verb) then Refusal(c.request.id, "method_forbidden")
    else if c.request.verb !in HANDLED then Refusal(c.request.id, "method_unknown")
    else c.answer
  }

  class BridgeService {
    var cache: map<string, Stored>
    var executed: seq<Request>

    constructor ()
      ensures Now() == EMPTY
    {
      cache, executed := map[], [];
    }

    function Now(): (r: Bridge)
      reads this
    {
      Bridge(cache, executed)
    }

    method Handle(c: Call) returns (response: Option<Response>)
      modifies this
      ensures (Now(), response) == HandleOf(old(Now()), c)
    {
      var id := c.request.id;
      if id in cache {
        if cache[id].request == c.request {
          return Some(cache[id].response);
        }
        return Some(Refusal(id, "request_id_conflict"));
      }
      var produced: Response;
      if Forbidden(c.request.verb) {
        produced := Refusal(id, "method_forbidden");
      } else if c.request.verb !in HANDLED {
        produced := Refusal(id, "method_unknown");
      } else {
        executed := executed + [c.request];
        produced := c.answer;
      }
      if c.dies {
        return None;
      }
      cache := cache[id := Stored(c.request, produced)];
      return Some(produced);
    }
  }

  function HandleOf(s: Bridge, c: Call): (r: (Bridge, Option<Response>)) {
    var id := c.request.id;
    if id in s.cache then
      (s, Some(if s.cache[id].request == c.request then s.cache[id].response else Refusal(id, "request_id_conflict")))
    else
      var executed := if Reaches(s, c.request) then s.executed + [c.request] else s.executed;
      if c.dies then (s.(executed := executed), None)
      else (Bridge(s.cache[id := Stored(c.request, FreshResponse(c))], executed), Some(FreshResponse(c)))
  }

  function History(s: Bridge, calls: seq<Call>): (r: Bridge) {
    if calls == [] then s else HandleOf(History(s, calls[..|calls| - 1]), calls[|calls| - 1]).0
  }

  /** How often a handler ran for an id, and how many of the calls with that id died. */
  function Runs(executed: seq<Request>, id: string): (r: nat) {
    if executed == [] then 0
    else Runs(executed[..|executed| - 1], id) + (if executed[|executed| - 1].id == id then 1 else 0)
  }

  /** The calls under `id` in which the process died. */
  ghost function Deaths(calls: seq<Call>, id: string): (r: set<int>) {
    set k | 0 <= k < |calls| && calls[k].request.id == id && calls[k].dies
  }

  // ---- Main results ----

  lemma DeathsStep(calls: seq<Call>, id: string)
    requires calls != []
    ensures var last, before := calls[|calls| - 1], calls[..|calls| - 1];
            |Deaths(calls, id)| == |Deaths(before, id)| + (if last.request.id == id && last.dies then 1 else 0)
  {
    var n, before := |calls| - 1, calls[..|calls| - 1];
    if calls[n].request.id == id && calls[n].dies {
      assert Deaths(calls, id) == Deaths(before, id) + {n};
    } else {
      assert Deaths(calls, id) == Deaths(before, id);
    }
  }

  /** A handler runs for a request id at most once, plus once for every process that died in it. */
  lemma {:induction false} HandlersRunOnce(calls: seq<Call>, id: string)
    ensures var s := History(EMPTY, calls);
            Runs(s.executed, id) <= |Deaths(calls, id)| + (if id in s.cache then 1 else 0)
  {
    if calls == [] {
    } else {
      HandlersRunOnce(calls[..|calls| - 1], id);
      DeathsStep(calls, id);
    }
  }

  /** Nothing outside the handled methods ever runs. */
  lemma {:induction false} OnlyHandledRuns(calls: seq<Call>)
    ensures forall q | q in History(EMPTY, calls).executed :: q.verb in HANDLED && !Forbidden(q.verb)
  {
    if calls == [] {
    } else {
      OnlyHandledRuns(calls[..|calls| - 1]);
    }
  }

  /** What a fresh request is answered without a handler: a verb that the bridge must not take, by its name or
      its prefix, is forbidden, and any other that it does not handle is unknown. */
  lemma UnhandledIsRefused(s: Bridge, c: Call)
    requires c.request.id !in s.cache && !c.dies
    ensures var (t, answer) := HandleOf(s, c);
            var verb, id := c.request.verb, c.request.id;
            if verb in {"final.read", "gate.modify", "shell.exec", "snapshot.promote", "snapshot.rollback",
                        "split.modify"} || "propose." <= verb then
              answer == Some(Response(id, false, "method_forbidden", "")) && t.executed == s.executed
            else if verb in {"health", "contract.validate", "candidate.check", "decision.explain", "events.ingest",
                             "trace.sync", "trace.verify"} then
              answer == Some(c.answer) && t.executed == s.executed + [c.request]
            else
              answer == Some(Response(id, false, "method_unknown", "")) && t.executed == s.executed
  {
  }

  /** A stored response is final: later calls neither change it nor run a handler for its id. */
  lemma {:induction false} StoredIsFinal(s: Bridge, calls: seq<Call>, id: string)
    requires id in s.cache
    ensures var t := History(s, calls);
            id in t.cache && t.cache[id] == s.cache[id] && Runs(t.executed, id) == Runs(s.executed, id)
  {
    if calls == [] {
    } else {
      var rest, last := calls[..|calls| - 1], calls[|calls| - 1];
      StoredIsFinal(s, rest, id);
    }
  }

  /** A request that was answered once is answered the same ever after, and another request under its
      id is refused without effect. */
  lemma RepeatsAgree(s: Bridge, c: Call, between: seq<Call>, again: Call)
    requires again.request.id == c.request.id && c.request.id !in s.cache && HandleOf(s, c).1.Some?
    ensures var t := History(HandleOf(s, c).0, between);
            && HandleOf(t, again).0 == t
            && HandleOf(t, again).1 == (if again.request == c.request then HandleOf(s, c).1
                                        else Some(Refusal(c.request.id, "request_id_conflict")))
  {
  }
}
