/** The JSON envelopes the route handlers answer with, and client-side navigation. */
module Http {
  import opened Wrappers

  /**
   * A response body: `{error}` alone (the search routes' 400), `{success: true, data}`,
   * or `{success: false, error}`.
   */
  datatype Envelope<+D> = ErrorOnly(error: string) | Success(data: D) | Failure(error: string)

  /** `NextResponse.json(body, {status})`; the status is 200 when none is given. */
  datatype Reply<+D> = Reply(status: int, body: Envelope<D>)

  /** What `await request.json()` gives: the parsed body, or the message of the SyntaxError it throws. */
  datatype Incoming<+B> = Parsed(body: B) | Malformed(message: string)

  /** `router.push(path + '?' + query)`, with the query kept as its list of parameters. */
  datatype Navigation = Navigate(path: string, query: seq<(string, string)>)

  /** `URLSearchParams.get(key)`: the first value given for key, or null. */
  function QueryGet(query: seq<(string, string)>, key: string): (r: Option<string>)
    ensures r.Some? <==> exists i :: 0 <= i < |query| && query[i].0 == key
    ensures r.Some? ==> exists i :: (0 <= i < |query| && query[i] == (key, r.value)
                                     && forall k :: 0 <= k < i ==> query[k].0 != key)
    decreases |query|
  {
    if query == [] then None
    else if query[0].0 == key then Some(query[0].1)
    else
      var r := QueryGet(query[1..], key);
      assert r.Some? ==> exists i :: (1 <= i < |query| && query[i] == (key, r.value)
                                      && forall k :: 1 <= k < i ==> query[k].0 != key) by {
        if r.Some? {
          var i :| (0 <= i < |query[1..]| && query[1..][i] == (key, r.value)
                    && forall k :: 0 <= k < i ==> query[1..][k].0 != key);
          assert query[i + 1] == (key, r.value);
          assert forall k :: 1 <= k < i + 1 ==> query[k].0 != key by {
            forall k | 1 <= k < i + 1 ensures query[k].0 != key {
              assert query[k] == query[1..][k - 1];
            }
          }
        }
      }
      r
  }
}
