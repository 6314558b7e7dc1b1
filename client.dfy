/** The inverter client: session state (`sid`), the one-shot value cache (`_cache`),
    the bulk fetch with its normalisation, the logger yield and the unit-tagged accessors. */
module SmaClient {
  import opened Wrappers
  import opened Php
  import opened Wire
  import opened Values
  import opened Metrics

  /** The exceptions the client throws. */
  datatype Error = AuthenticationError(code: int) | LogoutError

  /** The `sid` property: never assigned, `false` (the login reply carried none), or a token. */
  datatype SessionId = Unset | NoSid | Sid(token: string)

  function SessionScalar(s: SessionId): Scalar {
    match s
    case Unset => Null
    case NoSid => Bool(false)
    case Sid(t) => Str(t)
  }

  /** `if ($this->sid)`: a session is usable exactly when its token is PHP-truthy. */
  predicate Active(s: SessionId): (b: bool)
    ensures b <==> s.Sid? && s.token != "" && s.token != "0"
  {
    Truthy(SessionScalar(s))
  }

  /** The user and password the constructor logs in with. */
  datatype Credentials = Credentials(user: Scalar, pass: Scalar)

  /** `empty($options[name])`: a missing option is empty too. */
  predicate OptionEmpty(options: map<string, Scalar>, name: string) {
    name !in options || Empty(options[name])
  }

  /** The constructor's defaults: an empty user becomes "usr", an empty password "0000". */
  function DefaultCredentials(options: map<string, Scalar>): (c: Credentials)
    ensures !Empty(c.user) && !Empty(c.pass)
    ensures OptionEmpty(options, "user") ==> c.user == Str("usr")
    ensures !OptionEmpty(options, "user") ==> c.user == options["user"]
    ensures OptionEmpty(options, "pass") ==> c.pass == Str("0000")
    ensures !OptionEmpty(options, "pass") ==> c.pass == options["pass"]
  {
    Credentials(if OptionEmpty(options, "user") then Str("usr") else options["user"],
                if OptionEmpty(options, "pass") then Str("0000") else options["pass"])
  }

  /** Defaulting twice changes nothing more than defaulting once. */
  lemma DefaultCredentialsIdempotent(options: map<string, Scalar>)
    ensures var c := DefaultCredentials(options);
      DefaultCredentials(map["user" := c.user, "pass" := c.pass]) == c
  {
  }

  /** How a login reply ends: an error code above 0 (a missing one counts as 0) throws;
      otherwise the session is the returned token, or `false` when none came back. */
  function LoginOutcome(response: LoginResponse): (r: Result<SessionId, Error>)
    ensures r.Failure? <==> response.err.Some? && response.err.value > 0
    ensures r.Failure? ==> r.error == AuthenticationError(response.err.value)
    ensures r.Success? && response.sid.Some? ==> r.value == Sid(response.sid.value)
    ensures r.Success? && response.sid.None? ==> r.value == NoSid
  {
    var error := response.err.GetOr(0);
    if error > 0 then Failure(AuthenticationError(error))
    else if response.sid.Some? then Success(Sid(response.sid.value))
    else Success(NoSid)
  }

  /** A login leaves a usable session only when the device reported no error and
      granted a token that is neither "" nor "0". */
  lemma LoginActiveOnlyWithToken(response: LoginResponse)
    requires LoginOutcome(response).Success? && Active(LoginOutcome(response).value)
    ensures response.err.GetOr(0) <= 0
    ensures response.sid.Some? && response.sid.value != "" && response.sid.value != "0"
  {
  }

  /** How a logout reply ends: a `result` whose `isLogin` is anything but `false` throws. */
  function LogoutOutcome(response: LogoutResponse): (r: Result<bool, Error>)
    ensures r.Failure? <==> response.result.Some? && response.result.value.isLogin != Bool(false)
    ensures r.Failure? ==> r.error == LogoutError
    ensures r.Success? ==> r.value
  {
    if response.result.Some? && response.result.value.isLogin != Bool(false) then Failure(LogoutError)
    else Success(true)
  }

  class Client {
    const transport: Transport
    var sid: SessionId
    var cache: Option<RawValues>
    /** How many times a bulk fetch (`getValues`) has run. */
    ghost var fetches: nat

    /** A cached value set is one `getValues` produced. */
    ghost predicate Valid()
      reads this`cache
    {
      cache.Some? ==> WellFormed(cache.value)
    }

    /** The state before the constructor's login: no session, nothing cached. */
    constructor (transport: Transport)
      ensures this.transport == transport
      ensures sid == Unset && cache == None && fetches == 0
      ensures Valid()
    {
      this.transport := transport;
      sid := Unset;
      cache := None;
      fetches := 0;
    }

    /** `new Client($options)`: default the credentials, then log in; a failed login
        is the constructor's exception and no client comes back. */
    static method Open(options: map<string, Scalar>, transport: Transport) returns (r: Result<Client, Error>)
      modifies transport
      ensures var c := DefaultCredentials(options);
        transport.log == old(transport.log) + [LoginRequest(c.user, c.pass)]
      ensures var c := DefaultCredentials(options);
        var outcome := LoginOutcome(transport.login(|old(transport.log)|, c.user, c.pass));
        (outcome.Failure? ==> r == Failure(outcome.error)) &&
        (outcome.Success? ==> r.Success? && fresh(r.value) && r.value.transport == transport &&
                              r.value.sid == outcome.value && r.value.cache == None &&
                              r.value.fetches == 0 && r.value.Valid())
    {
      var credentials := DefaultCredentials(options);
      var client := new Client(transport);
      var login := client.Login(credentials.user, credentials.pass);
      if login.Failure? {
        return Failure(login.error);
      }
      return Success(client);
    }

    /** Posts the credentials; throws on a positive error code without touching `sid`,
        otherwise stores and returns the granted session. */
    method Login(user: Scalar, pass: Scalar) returns (r: Result<SessionId, Error>)
      modifies this`sid, transport
      ensures transport.log == old(transport.log) + [LoginRequest(user, pass)]
      ensures r == LoginOutcome(transport.login(|old(transport.log)|, user, pass))
      ensures r.Failure? ==> sid == old(sid)
      ensures r.Success? ==> sid == r.value
    {
      var response := transport.PostLogin(user, pass);
      var error := response.err.GetOr(0);
      if error > 0 {
        return Failure(AuthenticationError(error));
      }
      if response.sid.Some? {
        sid := Sid(response.sid.value);
      } else {
        sid := NoSid;
      }
      return Success(sid);
    }

    /** Without a usable session: `false`, and nothing is posted. Otherwise posts the
        logout and throws or returns `true` by the reply. `sid` is never cleared. */
    method Logout() returns (r: Result<bool, Error>)
      modifies transport
      ensures !Active(sid) ==> r == Success(false) && transport.log == old(transport.log)
      ensures Active(sid) ==> transport.log == old(transport.log) + [LogoutRequest(sid.token)]
      ensures Active(sid) ==> r == LogoutOutcome(transport.logout(|old(transport.log)|, sid.token))
      ensures sid == old(sid)
    {
      if Active(sid) {
        var response := transport.PostLogout(sid.token);
        if response.result.Some? && response.result.value.isLogin != Bool(false) {
          return Failure(LogoutError);
        }
        return Success(true);
      }
      return Success(false);
    }

    /** The yield a logger query over [from, to) answers as the `n`-th transport call
        with session `s`; 0 when `s` is not usable. */
    function LoggerYield(s: SessionId, n: nat, key: int, from: int, to: int): int {
      if Active(s) then SeriesYield(FirstSeries(transport.logger(n, s.token, key, from, to).result))
      else 0
    }

    /** `getPeriodicYield`: no session gives 0 with no call; otherwise one logger query over
        [from, to), `to` defaulting to a day after `from`, and the first device's delta. */
    method PeriodicYield(key: int, from: int, to: Option<int>) returns (y: int)
      modifies transport
      ensures var end := to.GetOr(from + DAY);
        transport.log == old(transport.log) + (if Active(sid) then [LoggerRequest(sid.token, key, from, end)] else [])
      ensures y == LoggerYield(sid, |old(transport.log)|, key, from, to.GetOr(from + DAY))
      ensures !Active(sid) ==> y == 0
    {
      if !Active(sid) {
        return 0;
      }
      var end := to.GetOr(from + DAY);
      var response := transport.PostLogger(sid.token, key, from, end);
      var logs := FirstSeries(response.result);
      if |logs| > 1 {
        var first, last := logs[0], logs[|logs| - 1];
        return last.v - first.v;
      }
      return 0;
    }

    /** The device entry a bulk query sent as the `n`-th transport call with session `s`
        reads; none when `s` is not usable. */
    function BulkDevice(s: SessionId, n: nat): DeviceValues {
      if Active(s) then FirstDevice(transport.values(n, s.token, Keys).result) else map[]
    }

    /** The value set a bulk fetch with session `s`, started when `n` calls have been
        made, returns; the today fallback is the call after the bulk query. */
    function FreshValues(s: SessionId, n: nat, midnight: int): (data: RawValues)
      ensures WellFormed(data)
    {
      var fallback := LoggerYield(s, n + 1, YIELD_KEY_TODAY, midnight, midnight + DAY);
      NormalisedShape(BulkDevice(s, n), fallback);
      Normalised(Extracted(BulkDevice(s, n)), fallback)
    }

    /** The requests that fetch posts: none without a usable session, else the bulk query,
        followed by the today logger query when the direct reading is empty. */
    function FetchRequests(s: SessionId, n: nat, midnight: int): seq<Request> {
      if !Active(s) then []
      else
        var fallback := if NeedsFallback(Extracted(BulkDevice(s, n)))
          then [LoggerRequest(s.token, YIELD_KEY_TODAY, midnight, midnight + DAY)] else [];
        [ValuesRequest(s.token, Keys)] + fallback
    }

    /** The device entry `getValues` reads: the first of a bulk query's reply, or none
        (and no call) without a usable session. */
    method FetchDevice() returns (device: DeviceValues)
      modifies transport
      ensures device == BulkDevice(sid, |old(transport.log)|)
      ensures transport.log == old(transport.log) + (if Active(sid) then [ValuesRequest(sid.token, Keys)] else [])
    {
      device := map[];
      if Active(sid) {
        var response := transport.PostValues(sid.token, Keys);
        device := FirstDevice(response.result);
      }
    }

    /** `getValues`: one bulk query when there is a session, normalisation, and the
        today-yield fallback from the logger since `midnight`. */
    method GetValues(midnight: int) returns (values: RawValues)
      modifies this`fetches, transport
      ensures values == FreshValues(old(sid), |old(transport.log)|, midnight)
      ensures transport.log == old(transport.log) + FetchRequests(old(sid), |old(transport.log)|, midnight)
      ensures fetches == old(fetches) + 1
    {
      ghost var bulk := BulkDevice(sid, |transport.log|);
      ghost var fallback := LoggerYield(sid, |transport.log| + 1, YIELD_KEY_TODAY, midnight, midnight + DAY);
      ghost var requests := FetchRequests(sid, |transport.log|, midnight);
      ghost var log0 := transport.log;
      fetches := fetches + 1;
      var device := FetchDevice();
      values := ReadValues(device);
      ghost var raw := values;
      if !IsEmptyValue(values[TOTAL_YIELD]) {
        values := values[TOTAL_YIELD := Some(values[TOTAL_YIELD].value * 1000)];
      }
      assert values == raw[TOTAL_YIELD := ScaleTotal(raw[TOTAL_YIELD])];
      if IsEmptyValue(values[TODAY_YIELD]) {
        var today := PeriodicYield(YIELD_KEY_TODAY, midnight, None);
        assert today == fallback;
        values := values[TODAY_YIELD := Some(today)];
        assert NeedsFallback(raw);
      } else {
        assert !NeedsFallback(raw);
      }
      assert values == Normalised(Extracted(bulk), fallback);
      assert transport.log == log0 + requests;
    }

    /** What one read through the cache does: a hit changes nothing; a miss runs one
        bulk fetch and caches its value set. */
    twostate predicate ReadData(midnight: int)
      reads this, transport
    {
      && cache.Some?
      && (old(cache).Some? ==>
            cache == old(cache) && fetches == old(fetches) && transport.log == old(transport.log))
      && (old(cache).None? ==>
            cache == Some(FreshValues(old(sid), |old(transport.log)|, midnight)) && fetches == old(fetches) + 1 &&
            transport.log == old(transport.log) + FetchRequests(old(sid), |old(transport.log)|, midnight))
    }

    /** `getData`: the cached value set, fetched first when nothing is cached. */
    method GetData(midnight: int) returns (data: RawValues)
      requires Valid()
      modifies this`cache, this`fetches, transport
      ensures Valid() && ReadData(midnight)
      ensures cache == Some(data)
    {
      if cache.None? {
        var values := GetValues(midnight);
        cache := Some(values);
      }
      data := cache.value;
    }

    method GetMaximumPower(midnight: int) returns (m: Metric)
      requires Valid()
      modifies this`cache, this`fetches, transport
      ensures Valid() && ReadData(midnight)
      ensures m == MetricOf(cache.value, MAXIMUM_POWER)
    {
      var data := GetData(midnight);
      m := Metric(data[MAXIMUM_POWER], "W");
    }

    method GetCurrentPower(midnight: int) returns (m: Metric)
      requires Valid()
      modifies this`cache, this`fetches, transport
      ensures Valid() && ReadData(midnight)
      ensures m == MetricOf(cache.value, CURRENT_POWER)
    {
      var data := GetData(midnight);
      m := Metric(data[CURRENT_POWER], "W");
    }

    method GetTotalYield(midnight: int) returns (m: Metric)
      requires Valid()
      modifies this`cache, this`fetches, transport
      ensures Valid() && ReadData(midnight)
      ensures m == MetricOf(cache.value, TOTAL_YIELD)
    {
      var data := GetData(midnight);
      m := Metric(data[TOTAL_YIELD], "Wh");
    }

    method GetTodayYield(midnight: int) returns (m: Metric)
      requires Valid()
      modifies this`cache, this`fetches, transport
      ensures Valid() && ReadData(midnight)
      ensures m == MetricOf(cache.value, TODAY_YIELD)
    {
      var data := GetData(midnight);
      m := Metric(data[TODAY_YIELD], "Wh");
    }

    method GetUptime(midnight: int) returns (m: Metric)
      requires Valid()
      modifies this`cache, this`fetches, transport
      ensures Valid() && ReadData(midnight)
      ensures m == MetricOf(cache.value, UPTIME)
    {
      var data := GetData(midnight);
      m := Metric(data[UPTIME], "s");
    }

    method GetPowerMetrics(midnight: int) returns (p: PowerMetrics)
      requires Valid()
      modifies this`cache, this`fetches, transport
      ensures Valid() && ReadData(midnight)
      ensures p == PowerOf(cache.value)
    {
      var maximum := GetMaximumPower(midnight);
      var current := GetCurrentPower(midnight);
      p := PowerMetrics(maximum, current);
    }

    method GetYieldMetrics(midnight: int) returns (y: YieldMetrics)
      requires Valid()
      modifies this`cache, this`fetches, transport
      ensures Valid() && ReadData(midnight)
      ensures y == YieldsOf(cache.value)
    {
      var total := GetTotalYield(midnight);
      var today := GetTodayYield(midnight);
      y := YieldMetrics(total, today);
    }

    /** `getMetrics`: drops the cache, so every field comes from one fresh bulk fetch. */
    method GetMetrics(midnight: int) returns (report: Report)
      requires Valid()
      modifies this`cache, this`fetches, transport
      ensures Valid()
      ensures fetches == old(fetches) + 1
      ensures transport.log == old(transport.log) + FetchRequests(old(sid), |old(transport.log)|, midnight)
      ensures BulkQueries(transport.log) == BulkQueries(old(transport.log)) + (if Active(sid) then 1 else 0)
      ensures cache == Some(FreshValues(old(sid), |old(transport.log)|, midnight))
      ensures report == ReportOf(cache.value)
    {
      ghost var renewed := FreshValues(sid, |transport.log|, midnight);
      ghost var requests := FetchRequests(sid, |transport.log|, midnight);
      cache := None;
      var power := GetPowerMetrics(midnight);
      assert cache == Some(renewed) && transport.log == old(transport.log) + requests;
      assert fetches == old(fetches) + 1;
      var energy := GetYieldMetrics(midnight);
      var uptime := GetUptime(midnight);
      assert cache == Some(renewed) && transport.log == old(transport.log) + requests;
      report := Report(power, energy, uptime);
      OneBulkQueryPerFetch(this, old(sid), |old(transport.log)|, old(transport.log), midnight);
    }
  }

  /** A bulk fetch posts exactly one bulk query when there is a session, and none
      without: appended to any earlier log, it adds one bulk query or none. */
  lemma OneBulkQueryPerFetch(client: Client, s: SessionId, n: nat, before: seq<Request>, midnight: int)
    ensures BulkQueries(before + client.FetchRequests(s, n, midnight))
         == BulkQueries(before) + (if Active(s) then 1 else 0)
  {
    var requests := client.FetchRequests(s, n, midnight);
    BulkQueriesAppend(before, requests);
    if Active(s) {
      BulkQueriesAppend([requests[0]], requests[1..]);
      assert [requests[0]] + requests[1..] == requests;
    }
  }

  /** Without a session a fetch posts nothing, and every value is null except today
      yield, which the fallback sets to 0. */
  lemma NoSessionFetch(client: Client, s: SessionId, n: nat, midnight: int)
    requires !Active(s)
    ensures client.FetchRequests(s, n, midnight) == []
    ensures client.FreshValues(s, n, midnight)
         == map[MAXIMUM_POWER := None, CURRENT_POWER := None, TOTAL_YIELD := None,
                TODAY_YIELD := Some(0), UPTIME := None]
  {
    NoDeviceValues();
  }

  /** A non-empty direct today-yield reading is kept as it is and no logger query is posted. */
  lemma DirectTodayYieldKept(client: Client, s: SessionId, n: nat, midnight: int)
    requires !IsEmptyValue(Lookup(client.BulkDevice(s, n), TODAY_YIELD))
    ensures client.FreshValues(s, n, midnight)[TODAY_YIELD] == Lookup(client.BulkDevice(s, n), TODAY_YIELD)
    ensures forall i :: 0 <= i < |client.FetchRequests(s, n, midnight)| ==>
      !client.FetchRequests(s, n, midnight)[i].LoggerRequest?
  {
  }

  /** An empty direct today-yield reading is replaced, unscaled, by the logger yield of the
      day starting at `midnight`, queried right after the bulk query. */
  lemma EmptyTodayYieldFallsBack(client: Client, s: SessionId, n: nat, midnight: int)
    requires IsEmptyValue(Lookup(client.BulkDevice(s, n), TODAY_YIELD))
    ensures client.FreshValues(s, n, midnight)[TODAY_YIELD]
         == Some(client.LoggerYield(s, n + 1, YIELD_KEY_TODAY, midnight, midnight + DAY))
    ensures Active(s) ==>
      client.FetchRequests(s, n, midnight)
        == [ValuesRequest(s.token, Keys), LoggerRequest(s.token, YIELD_KEY_TODAY, midnight, midnight + DAY)]
  {
  }

  /** Two reads of one metric in a row share at most one bulk fetch and agree. */
  method MaximumPowerTwice(client: Client, midnight: int) returns (first: Metric, second: Metric)
    requires client.Valid()
    modifies client`cache, client`fetches, client.transport
    ensures first == second
    ensures client.fetches <= old(client.fetches) + 1
    ensures BulkQueries(client.transport.log) <= BulkQueries(old(client.transport.log)) + 1
  {
    OneBulkQueryPerFetch(client, client.sid, |client.transport.log|, client.transport.log, midnight);
    first := client.GetMaximumPower(midnight);
    second := client.GetMaximumPower(midnight);
  }
}
