/** The device's fixed wire contract and the transport the client posts through.
    HTTP and JSON decoding are abstracted away: each endpoint is a function from
    the number of earlier calls and the request fields to a decoded response, so a
    device whose readings change over time is still a deterministic oracle. */
module Wire {
  import opened Wrappers
  import opened Php

  /** One `{"val": …}` record of a getValues reply; `None` when `val` is missing or null. */
  datatype Reading = Reading(val: Option<int>)

  /** The object stored under one value key, indexed by its channel (the JSON key "1"
      becomes the integer key 1 after decoding). */
  type Channel = map<int, seq<Reading>>

  /** One device entry of a getValues reply: value key to channel object. */
  type DeviceValues = map<string, Channel>

  /** One `{"t": …, "v": …}` sample of a getLogger reply. */
  datatype Sample = Sample(t: int, v: int)

  /** `POST /dyn/login.json`: `err` (absent when the device reports none)
      and `result.sid` (absent when missing or null). */
  datatype LoginResponse = LoginResponse(err: Option<int>, sid: Option<string>)

  /** The `result` object of a logout reply; `isLogin` is `Null` when missing. */
  datatype LogoutResult = LogoutResult(isLogin: Scalar)

  /** `POST /dyn/logout.json?sid=…`: `result` is absent when missing or null. */
  datatype LogoutResponse = LogoutResponse(result: Option<LogoutResult>)

  /** `POST /dyn/getValues.json?sid=…`: the device entries of `result`, in reply order. */
  datatype ValuesResponse = ValuesResponse(result: seq<DeviceValues>)

  /** `POST /dyn/getLogger.json?sid=…`: each device's sample list, in reply order. */
  datatype LoggerResponse = LoggerResponse(result: seq<seq<Sample>>)

  /** A request as posted, with the fields that vary between calls. */
  datatype Request =
    | LoginRequest(right: Scalar, pass: Scalar)
    | LogoutRequest(sid: string)
    | ValuesRequest(sid: string, keys: seq<string>)
    | LoggerRequest(sid: string, key: int, tStart: int, tEnd: int)

  /** The number of bulk getValues queries in a request log. */
  function BulkQueries(log: seq<Request>): nat
    decreases |log|
  {
    if log == [] then 0
    else (if log[0].ValuesRequest? then 1 else 0) + BulkQueries(log[1..])
  }

  /** Counting bulk queries distributes over appending to the log. */
  lemma {:induction false} BulkQueriesAppend(a: seq<Request>, b: seq<Request>)
    ensures BulkQueries(a + b) == BulkQueries(a) + BulkQueries(b)
  {
    if a != [] {
      assert (a + b)[1..] == a[1..] + b;
      BulkQueriesAppend(a[1..], b);
    } else {
      assert a + b == b;
    }
  }

  /** The black-box transport: the device's answers and the log of every request posted. */
  class Transport {
    const login: (nat, Scalar, Scalar) -> LoginResponse
    const logout: (nat, string) -> LogoutResponse
    const values: (nat, string, seq<string>) -> ValuesResponse
    const logger: (nat, string, int, int, int) -> LoggerResponse
    var log: seq<Request>

    constructor (login: (nat, Scalar, Scalar) -> LoginResponse,
                 logout: (nat, string) -> LogoutResponse,
                 values: (nat, string, seq<string>) -> ValuesResponse,
                 logger: (nat, string, int, int, int) -> LoggerResponse)
      ensures this.login == login && this.logout == logout
      ensures this.values == values && this.logger == logger
      ensures log == []
    {
      this.login := login;
      this.logout := logout;
      this.values := values;
      this.logger := logger;
      log := [];
    }

    method PostLogin(right: Scalar, pass: Scalar) returns (response: LoginResponse)
      modifies this
      ensures log == old(log) + [LoginRequest(right, pass)]
      ensures response == login(|old(log)|, right, pass)
    {
      response := login(|log|, right, pass);
      log := log + [LoginRequest(right, pass)];
    }

    method PostLogout(sid: string) returns (response: LogoutResponse)
      modifies this
      ensures log == old(log) + [LogoutRequest(sid)]
      ensures response == logout(|old(log)|, sid)
    {
      response := logout(|log|, sid);
      log := log + [LogoutRequest(sid)];
    }

    method PostValues(sid: string, keys: seq<string>) returns (response: ValuesResponse)
      modifies this
      ensures log == old(log) + [ValuesRequest(sid, keys)]
      ensures response == values(|old(log)|, sid, keys)
    {
      response := values(|log|, sid, keys);
      log := log + [ValuesRequest(sid, keys)];
    }

    method PostLogger(sid: string, key: int, tStart: int, tEnd: int) returns (response: LoggerResponse)
      modifies this
      ensures log == old(log) + [LoggerRequest(sid, key, tStart, tEnd)]
      ensures response == logger(|old(log)|, sid, key, tStart, tEnd)
    {
      response := logger(|log|, sid, key, tStart, tEnd);
      log := log + [LoggerRequest(sid, key, tStart, tEnd)];
    }
  }
}
