/**
 * The TanStack Query set-up of the application: the retry policy of queries
 * and mutations, the default options every client is made with, and the
 * browser-side singleton held in a module-level variable. Whether the code
 * runs on the server (`typeof window === 'undefined'`) is a parameter.
 */
module QueryProvider {
  /** What a failed query throws, as far as the retry policy can see. */
  datatype QueryError =
    | NotAnObject                   // null, undefined, a string, a number …
    | ObjectWithoutStatus
    | ObjectWithStatus(status: int)

  predicate IsClientError(error: QueryError) {
    error.ObjectWithStatus? && 400 <= error.status < 500
  }

  const MAX_QUERY_RETRIES: nat := 3

  /** The `retry` callback of queries: never after a 4xx, otherwise while fewer than three failures. */
  function QueryRetry(failureCount: nat, error: QueryError): (retry: bool)
    ensures IsClientError(error) ==> !retry
    ensures !IsClientError(error) ==> (retry <==> failureCount < MAX_QUERY_RETRIES)
  {
    if error.ObjectWithStatus? && error.status >= 400 && error.status < 500 then false
    else failureCount < 3
  }

  /**
   * How many retries a query makes from failure number `i` on, when its
   * `k`-th failure throws `errors[k]`: every retry counted was allowed, and the
   * next failure, if there is one, was not retried.
   */
  function RetriesFrom(errors: seq<QueryError>, i: nat): (r: nat)
    requires i <= |errors|
    ensures i + r <= |errors|
    ensures r <= if i < MAX_QUERY_RETRIES then MAX_QUERY_RETRIES - i else 0
    ensures forall k :: i <= k < i + r ==> QueryRetry(k, errors[k])
    ensures i + r < |errors| ==> !QueryRetry(i + r, errors[i + r])
    decreases |errors| - i
  {
    if i == |errors| || !QueryRetry(i, errors[i]) then 0 else 1 + RetriesFrom(errors, i + 1)
  }

  /** A query is retried at most three times, whatever it throws. */
  lemma AtMostThreeRetries(errors: seq<QueryError>)
    ensures RetriesFrom(errors, 0) <= 3
  {
  }

  /** A 4xx on the first failure means no retry at all. */
  lemma ClientErrorNotRetried(errors: seq<QueryError>)
    requires errors != [] && IsClientError(errors[0])
    ensures RetriesFrom(errors, 0) == 0
  {
  }

  /** With at least three failures and no 4xx among the first three, all three retries happen. */
  lemma ThreeRetriesWithoutClientError(errors: seq<QueryError>)
    requires |errors| >= 3
    requires forall k :: 0 <= k < 3 ==> !IsClientError(errors[k])
    ensures RetriesFrom(errors, 0) == 3
  {
  }

  /** The mutations' `retry: 1`: retry while fewer than one failure has happened. */
  function MutationRetry(failureCount: nat): (retry: bool)
    ensures retry <==> failureCount == 0
  {
    failureCount < 1
  }

  /** The `defaultOptions` every client is made with. */
  datatype QueryDefaults = QueryDefaults(
    staleTimeMs: nat,
    gcTimeMs: nat,
    refetchOnWindowFocus: bool,
    refetchOnReconnect: bool,
    refetchOnMount: bool,
    mutationRetries: nat,
    mutationNetworkMode: string)

  const DEFAULTS: QueryDefaults := QueryDefaults(
    60 * 1000,
    10 * 60 * 1000,
    false,
    true,
    true,
    1,
    "online")

  /** A client, distinguished by identity; only its options are modelled. */
  class QueryClient {
    const options: QueryDefaults

    constructor (options: QueryDefaults)
      ensures this.options == options
    {
      this.options := options;
    }
  }

  /** `makeQueryClient`: a new client with the defaults above. */
  method MakeQueryClient() returns (client: QueryClient)
    ensures fresh(client)
    ensures client.options == DEFAULTS
  {
    client := new QueryClient(DEFAULTS);
  }

  /** The module, holding `browserQueryClient`. */
  class ProviderModule {
    var browserQueryClient: QueryClient?

    /** A stored client was made by `makeQueryClient`. */
    predicate Valid()
      reads this
    {
      browserQueryClient != null ==> browserQueryClient.options == DEFAULTS
    }

    /** At load the variable is `undefined`. */
    constructor ()
      ensures Valid() && browserQueryClient == null
    {
      browserQueryClient := null;
    }

    /**
     * `getQueryClient`: on the server a new client every call, leaving the
     * variable alone; in the browser the stored client, made and stored on
     * the first call.
     */
    method GetQueryClient(isServer: bool) returns (client: QueryClient)
      requires Valid()
      modifies this
      ensures Valid()
      ensures client.options == DEFAULTS
      ensures isServer ==> fresh(client) && browserQueryClient == old(browserQueryClient)
      ensures !isServer ==> browserQueryClient == client
      ensures !isServer && old(browserQueryClient) == null ==> fresh(client)
      ensures !isServer && old(browserQueryClient) != null ==> client == old(browserQueryClient)
    {
      if isServer {
        client := MakeQueryClient();
      } else {
        if browserQueryClient == null {
          browserQueryClient := MakeQueryClient();
        }
        client := browserQueryClient;
      }
    }
  }

  /** `getServerQueryClient`: always a new client. */
  method GetServerQueryClient() returns (client: QueryClient)
    ensures fresh(client) && client.options == DEFAULTS
  {
    client := MakeQueryClient();
  }

  /** In the browser two calls hand out one and the same client, the stored one. */
  method TwoBrowserCalls(m: ProviderModule) returns (first: QueryClient, second: QueryClient)
    requires m.Valid()
    modifies m
    ensures m.Valid()
    ensures first == second == m.browserQueryClient
  {
    first := m.GetQueryClient(false);
    second := m.GetQueryClient(false);
  }

  /** On the server two calls hand out two different clients and store neither. */
  method TwoServerCalls(m: ProviderModule) returns (first: QueryClient, second: QueryClient)
    requires m.Valid()
    modifies m
    ensures m.Valid()
    ensures first != second
    ensures m.browserQueryClient == old(m.browserQueryClient)
  {
    first := m.GetQueryClient(true);
    second := m.GetQueryClient(true);
  }
}
