/** What the screens see of the REST backend: a request, its outcome (a body
    or an error with an optional HTTP status and an optional `detail`
    message), and the settle-all aggregation the list screens apply to one
    request per park. */
module Http {
  import opened Base

  datatype Verb = GET | POST | PUT | DELETE

  /** A GET issued through the shared client: path and query parameters. */
  datatype Request = Request(path: string, params: map<string, string>)

  /** A write issued with an explicit header set and a JSON body. */
  datatype Call<B> = Call(verb: Verb, path: string, headers: map<string, string>, body: B)

  /** The outcome of a request: `Ok(data)` when it resolved, `Err` when it
      rejected; a network failure has no status. */
  datatype Response<T> = Ok(body: T) | Err(status: Option<int>, detail: Option<string>)

  /** A modal alert: title and message. */
  datatype Alert = Alert(title: string, message: string)

  /** `e?.response?.data?.detail || fallback` */
  function MessageOr(detail: Option<string>, fallback: string): (m: string)
    ensures Truthy(detail) ==> m == detail.value
    ensures !Truthy(detail) ==> m == fallback
  {
    OrDefault(detail, fallback)
  }

  /** The outcome of each request of a fan-out, in request order. */
  function Responses<T>(rs: seq<Request>, net: Request -> Response<T>): (out: seq<Response<T>>)
    ensures |out| == |rs|
  {
    seq(|rs|, i requires 0 <= i < |rs| => net(rs[i]))
  }

  function IsNotFound<T>(r: Response<T>): bool {
    r.Err? && r.status == Some(404)
  }

  /** Body contributed by one settled response: its list when fulfilled,
      nothing when rejected. */
  function Contribution<T>(r: Response<seq<T>>): seq<T> {
    match r
    case Ok(b) => b
    case Err(_, _) => []
  }

  /** The settle-all join: the bodies of the fulfilled responses, concatenated
      in request order. */
  function Fulfilled<T>(rs: seq<Response<seq<T>>>): seq<T> {
    if rs == [] then [] else Fulfilled(rs[..|rs| - 1]) + Contribution(rs[|rs| - 1])
  }

  /** The `for (const r of responses) if (r.status === "fulfilled")
      agregados.push(...)` loop of the list screens. */
  method CollectFulfilled<T>(responses: seq<Response<seq<T>>>) returns (agg: seq<T>)
    ensures agg == Fulfilled(responses)
  {
    agg := [];
    for i := 0 to |responses|
      invariant agg == Fulfilled(responses[..i])
    {
      if responses[i].Ok? {
        agg := agg + responses[i].body;
      }
      assert responses[..i + 1][..i] == responses[..i];
    }
    assert responses[..|responses|] == responses;
  }

  /** The join distributes over concatenation of the request list: the
      aggregate keeps request order. */
  lemma {:induction false} FulfilledAppend<T>(a: seq<Response<seq<T>>>, b: seq<Response<seq<T>>>)
    ensures Fulfilled(a + b) == Fulfilled(a) + Fulfilled(b)
  {
    if b != [] {
      var b' := b[..|b| - 1];
      assert (a + b)[..|a + b| - 1] == a + b';
      assert (a + b)[|a + b| - 1] == b[|b| - 1];
      FulfilledAppend(a, b');
    } else {
      assert a + b == a;
    }
  }

  lemma RejectedContributesNothing<T>(r: Response<seq<T>>)
    requires r.Err?
    ensures Fulfilled([r]) == []
  {
    assert [r][..0] == [];
  }

  /** A rejected request is dropped without disturbing the others: the
      aggregate is what the requests before it and after it contribute. */
  lemma {:induction false} FailedRequestOmitted<T>(rs: seq<Response<seq<T>>>, k: nat)
    requires k < |rs| && rs[k].Err?
    ensures Fulfilled(rs) == Fulfilled(rs[..k]) + Fulfilled(rs[k + 1..])
  {
    var pre, mid, post := rs[..k], [rs[k]], rs[k + 1..];
    RejectedContributesNothing(rs[k]);
    assert rs == (pre + mid) + post;
    FulfilledAppend(pre + mid, post);
    FulfilledAppend(pre, mid);
  }

  /** An item is in the aggregate exactly when some fulfilled response
      carries it. */
  lemma {:induction false} FulfilledMembership<T>(rs: seq<Response<seq<T>>>, x: T)
    ensures x in Fulfilled(rs) <==> exists k :: 0 <= k < |rs| && rs[k].Ok? && x in rs[k].body
  {
    if rs != [] {
      var init := rs[..|rs| - 1];
      FulfilledMembership(init, x);
      if x in Fulfilled(rs) {
        if x in Fulfilled(init) {
          var k :| 0 <= k < |init| && init[k].Ok? && x in init[k].body;
          assert rs[k] == init[k];
        }
      } else {
        forall k | 0 <= k < |rs| && rs[k].Ok?
          ensures x !in rs[k].body
        {
          if k < |init| { assert rs[k] == init[k]; }
        }
      }
    }
  }

  /** With every request rejected the aggregate is empty (and no error is
      raised: the join never fails). */
  lemma AllRejectedIsEmpty<T>(rs: seq<Response<seq<T>>>)
    requires forall k :: 0 <= k < |rs| ==> rs[k].Err?
    ensures Fulfilled(rs) == []
  {
    if Fulfilled(rs) != [] {
      FulfilledMembership(rs, Fulfilled(rs)[0]);
    }
  }
}
