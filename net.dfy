/**
 The browser facilities the core talks to: `localStorage` and the REST API
 behind the shared HTTP client, plus a small interpreter for ordered fallback
 chains of requests.

 The API is scripted: each request consumes the next outcome of `script`, and
 every request issued is appended to `log`. When the script runs out, a
 request fails as if no response had arrived.
 */
module Net {
  import opened Wrappers
  import opened Js

  datatype Verb = GET | POST | PATCH | PUT

  /** The endpoints the core calls; path parameters keep the value that was interpolated. */
  datatype Endpoint =
    | AuthMe                        // /auth/me
    | UsersMe                       // /users/me
    | AuthLogin                     // /auth/login
    | AuthLogout                    // /auth/logout
    | Patients                      // /patients
    | PatientsOfUser(userId: Json)  // /patients/user/:userId
    | PatientById(id: Json)         // /patients/:id
    | UserById(id: Json)            // /users/:id
    | UsersProfile                  // /users/profile

  datatype Request = Request(verb: Verb, endpoint: Endpoint, body: Json)

  /** What a request comes back with. On failure, `status` is the HTTP status when
      there was a response, `apiMessage` is the text of `response.data.message`
      ("" when absent) and `message` is the client error's own `message`. */
  datatype Outcome =
    | Ok(data: Json)
    | Fail(status: Option<int>, apiMessage: string, message: string)

  /** `error.response?.data?.message` as text: only a failure that got a response carries one. */
  function ResponseMessage(o: Outcome): (m: string)
    requires o.Fail?
    ensures o.status.None? ==> m == ""
  {
    if o.status.Some? then o.apiMessage else ""
  }

  /** A request sent after the script is exhausted: no response at all. */
  const NoResponse: Outcome := Fail(None, "", "Network Error")

  /** Everything outside the components: storage, the pending API outcomes, the request log. */
  datatype Env = Env(storage: map<string, Json>, script: seq<Outcome>, log: seq<Request>)

  function OutcomeAt(script: seq<Outcome>, i: nat): Outcome {
    if i < |script| then script[i] else NoResponse
  }

  function Drop(script: seq<Outcome>, n: nat): seq<Outcome> {
    if n <= |script| then script[n..] else []
  }

  /** Issue one request. */
  function Call(e: Env, req: Request): (Outcome, Env) {
    (OutcomeAt(e.script, 0), e.(script := Drop(e.script, 1), log := e.log + [req]))
  }

  /** `localStorage.getItem(k)`, null when absent. */
  function GetItem(storage: map<string, Json>, k: string): Json {
    if k in storage then storage[k] else Null
  }

  // ---------------------------------------------------------------------------
  // Ordered fallback chains

  /** Which failures of a step move the chain on to the next step. */
  datatype Retry = Never | AnyFailure | OnStatus(codes: set<int>)

  predicate Retries(r: Retry, o: Outcome) {
    o.Fail? &&
    match r
    case Never => false
    case AnyFailure => true
    case OnStatus(codes) => o.status.Some? && o.status.value in codes
  }

  datatype Step = Step(req: Request, retry: Retry)

  datatype Run = Run(outcome: Outcome, attempts: nat, env: Env)

  function Requests(steps: seq<Step>): (r: seq<Request>)
    ensures |r| == |steps| && forall i :: 0 <= i < |steps| ==> r[i] == steps[i].req
  {
    if |steps| == 0 then [] else [steps[0].req] + Requests(steps[1..])
  }

  /** Run a chain strictly in order: a step is attempted only once the previous
      one has failed in a way that its `retry` names; the chain stops at the
      first success, at a failure that does not retry, or after the last step. */
  function RunChain(steps: seq<Step>, e: Env): (r: Run)
    requires |steps| > 0
    ensures 1 <= r.attempts <= |steps|
    ensures r.env == e.(script := Drop(e.script, r.attempts), log := e.log + Requests(steps[..r.attempts]))
    ensures r.outcome == OutcomeAt(e.script, r.attempts - 1)
    ensures forall i :: 0 <= i < r.attempts - 1 ==> Retries(steps[i].retry, OutcomeAt(e.script, i))
    ensures r.attempts < |steps| ==> !Retries(steps[r.attempts - 1].retry, r.outcome)
    decreases |steps|
  {
    var o := OutcomeAt(e.script, 0);
    var e1 := e.(script := Drop(e.script, 1), log := e.log + [steps[0].req]);
    if |steps| == 1 || !Retries(steps[0].retry, o) then
      assert steps[..1] == [steps[0]];
      Run(o, 1, e1)
    else
      var r := RunChain(steps[1..], e1);
      ChainExtends(steps, e, r);
      Run(r.outcome, r.attempts + 1, r.env)
  }

  /** One more failed-and-retried step in front of a run of the remaining steps. */
  lemma ChainExtends(steps: seq<Step>, e: Env, r: Run)
    requires |steps| > 1 && Retries(steps[0].retry, OutcomeAt(e.script, 0))
    requires 1 <= r.attempts <= |steps| - 1
    requires var e1 := e.(script := Drop(e.script, 1), log := e.log + [steps[0].req]);
      && r.env == e1.(script := Drop(e1.script, r.attempts), log := e1.log + Requests(steps[1..][..r.attempts]))
      && r.outcome == OutcomeAt(e1.script, r.attempts - 1)
      && (forall i :: 0 <= i < r.attempts - 1 ==> Retries(steps[1..][i].retry, OutcomeAt(e1.script, i)))
      && (r.attempts < |steps| - 1 ==> !Retries(steps[1..][r.attempts - 1].retry, r.outcome))
    ensures r.env == e.(script := Drop(e.script, r.attempts + 1), log := e.log + Requests(steps[..r.attempts + 1]))
    ensures r.outcome == OutcomeAt(e.script, r.attempts)
    ensures forall i :: 0 <= i < r.attempts ==> Retries(steps[i].retry, OutcomeAt(e.script, i))
    ensures r.attempts + 1 < |steps| ==> !Retries(steps[r.attempts].retry, r.outcome)
  {
    var k := r.attempts;
    DropAfterFirst(e.script, k);
    OutcomeAfterFirst(e.script, k - 1);
    RequestsCons(steps, k);
    assert e.log + [steps[0].req] + Requests(steps[1..][..k]) == e.log + ([steps[0].req] + Requests(steps[1..][..k]));
    forall i | 0 <= i < k ensures Retries(steps[i].retry, OutcomeAt(e.script, i)) {
      if i > 0 {
        assert steps[i] == steps[1..][i - 1];
        OutcomeAfterFirst(e.script, i - 1);
      }
    }
  }

  lemma RequestsCons(steps: seq<Step>, k: nat)
    requires 0 < k < |steps|
    ensures Requests(steps[..k + 1]) == [steps[0].req] + Requests(steps[1..][..k])
  {
    assert steps[..k + 1] == [steps[0]] + steps[1..][..k];
    assert ([steps[0]] + steps[1..][..k])[1..] == steps[1..][..k];
  }

  lemma DropAfterFirst(script: seq<Outcome>, n: nat)
    ensures Drop(Drop(script, 1), n) == Drop(script, n + 1)
  {
  }

  lemma OutcomeAfterFirst(script: seq<Outcome>, i: nat)
    ensures OutcomeAt(Drop(script, 1), i) == OutcomeAt(script, i + 1)
  {
  }

  /** A chain never issues more requests than it has steps, only appends to the
      log, and never touches storage. */
  lemma {:induction false} RunChainShape(steps: seq<Step>, e: Env)
    requires |steps| > 0
    ensures |RunChain(steps, e).env.log| <= |e.log| + |steps|
    ensures RunChain(steps, e).env.log[..|e.log|] == e.log
    ensures RunChain(steps, e).env.storage == e.storage
  {
    var r := RunChain(steps, e);
    assert |Requests(steps[..r.attempts])| == r.attempts;
  }

  /** A chain of two steps, unfolded: the second step runs exactly when the first one's failure retries. */
  lemma TwoStepChain(a: Step, b: Step, e: Env)
    ensures var r := RunChain([a, b], e);
      && (!Retries(a.retry, OutcomeAt(e.script, 0)) ==>
            r == Run(OutcomeAt(e.script, 0), 1, e.(script := Drop(e.script, 1), log := e.log + [a.req])))
      && (Retries(a.retry, OutcomeAt(e.script, 0)) ==>
            r == Run(OutcomeAt(e.script, 1), 2, e.(script := Drop(e.script, 2), log := e.log + [a.req, b.req])))
  {
    var steps := [a, b];
    var r := RunChain(steps, e);
    assert steps[..1] == [a] && steps[..2] == steps;
    assert Requests([a]) == [a.req];
    assert Requests(steps) == [a.req, b.req];
    if Retries(a.retry, OutcomeAt(e.script, 0)) {
      assert r.attempts == 2;
    } else {
      assert r.attempts == 1;
    }
  }

  /** A chain of three steps, unfolded. */
  lemma ThreeStepChain(a: Step, b: Step, c: Step, e: Env)
    ensures var r := RunChain([a, b, c], e);
      && (!Retries(a.retry, OutcomeAt(e.script, 0)) ==>
            r == Run(OutcomeAt(e.script, 0), 1, e.(script := Drop(e.script, 1), log := e.log + [a.req])))
      && (Retries(a.retry, OutcomeAt(e.script, 0)) && !Retries(b.retry, OutcomeAt(e.script, 1)) ==>
            r == Run(OutcomeAt(e.script, 1), 2, e.(script := Drop(e.script, 2), log := e.log + [a.req, b.req])))
      && (Retries(a.retry, OutcomeAt(e.script, 0)) && Retries(b.retry, OutcomeAt(e.script, 1)) ==>
            r == Run(OutcomeAt(e.script, 2), 3, e.(script := Drop(e.script, 3), log := e.log + [a.req, b.req, c.req])))
  {
    var steps := [a, b, c];
    var r := RunChain(steps, e);
    assert steps[..1] == [a] && steps[..2] == [a, b] && steps[..3] == steps;
    assert Requests([a]) == [a.req];
    assert Requests([a, b]) == [a.req, b.req];
    assert Requests(steps) == [a.req, b.req, c.req];
    if !Retries(a.retry, OutcomeAt(e.script, 0)) {
      assert r.attempts == 1;
    } else if !Retries(b.retry, OutcomeAt(e.script, 1)) {
      assert r.attempts == 2;
    } else {
      assert r.attempts == 3;
    }
  }

  // ---------------------------------------------------------------------------
  // The stateful objects

  /** `window.localStorage` */
  class LocalStorage {
    var items: map<string, Json>

    constructor (items: map<string, Json>)
      ensures this.items == items
    {
      this.items := items;
    }

    method SetItem(k: string, v: Json)
      modifies this
      ensures items == old(items)[k := v]
    {
      items := items[k := v];
    }

    method RemoveItem(k: string)
      modifies this
      ensures items == old(items) - {k}
    {
      items := items - {k};
    }
  }

  /** The shared HTTP client, answering from a script. */
  class ApiClient {
    var script: seq<Outcome>
    var log: seq<Request>

    constructor (script: seq<Outcome>)
      ensures this.script == script && log == []
    {
      this.script := script;
      log := [];
    }

    method Send(req: Request) returns (o: Outcome)
      modifies this
      ensures o == OutcomeAt(old(script), 0)
      ensures script == Drop(old(script), 1)
      ensures log == old(log) + [req]
    {
      o := if |script| > 0 then script[0] else NoResponse;
      script := if |script| > 0 then script[1..] else [];
      log := log + [req];
    }
  }

  /** Two requests nested as `try { a } catch (e) { if (retry admits e) b else throw e }`. */
  method SendTwo(api: ApiClient, ghost storage: map<string, Json>, a: Step, b: Step) returns (o: Outcome, attempts: nat)
    modifies api
    ensures var r := RunChain([a, b], Env(storage, old(api.script), old(api.log)));
      o == r.outcome && attempts == r.attempts && api.script == r.env.script && api.log == r.env.log
  {
    ghost var e := Env(storage, api.script, api.log);
    TwoStepChain(a, b, e);
    DropAfterFirst(e.script, 1);
    OutcomeAfterFirst(e.script, 0);
    o := api.Send(a.req);
    attempts := 1;
    if Retries(a.retry, o) {
      o := api.Send(b.req);
      attempts := 2;
      assert api.log == e.log + [a.req, b.req];
    }
  }

  /** Three requests, each later one sent from the catch block of the one before. */
  method SendThree(api: ApiClient, ghost storage: map<string, Json>, a: Step, b: Step, c: Step) returns (o: Outcome, attempts: nat)
    modifies api
    ensures var r := RunChain([a, b, c], Env(storage, old(api.script), old(api.log)));
      o == r.outcome && attempts == r.attempts && api.script == r.env.script && api.log == r.env.log
  {
    ghost var e := Env(storage, api.script, api.log);
    ThreeStepChain(a, b, c, e);
    DropAfterFirst(e.script, 1);
    DropAfterFirst(Drop(e.script, 1), 1);
    DropAfterFirst(e.script, 2);
    OutcomeAfterFirst(e.script, 0);
    OutcomeAfterFirst(e.script, 1);
    OutcomeAfterFirst(Drop(e.script, 1), 0);
    o := api.Send(a.req);
    attempts := 1;
    if Retries(a.retry, o) {
      o := api.Send(b.req);
      attempts := 2;
      assert api.log == e.log + [a.req, b.req];
      if Retries(b.retry, o) {
        o := api.Send(c.req);
        attempts := 3;
        assert api.log == e.log + [a.req, b.req, c.req];
      }
    }
  }

  function EnvOf(store: LocalStorage, api: ApiClient): Env
    reads store, api
  {
    Env(store.items, api.script, api.log)
  }
}
