/**
 * The network guest collector (mom/Collectors/GuestNetworkDaemon.py).  The
 * host side asks a daemon inside the guest for `stats` over a socket and
 * parses the `key:value,key:value` reply; the guest side answers with its
 * own memory figures.  Connecting, sending and receiving are external:
 * whether the connection came up and the reply received (None when the
 * socket failed) are inputs.  Only the guest side's reply format is part
 * of the model, not its server loop.
 */
module GuestNetworkDaemons {
  import opened Wrappers
  import opened Dicts
  import opened Strings
  import opened Monitoring

  /** `getFields`. */
  function Fields(): set<string> {
    {"mem_available", "mem_unused", "major_fault", "minor_fault", "swap_in", "swap_out"}
  }

  /** `'ok'`, or `'dead'` once the guest is known to have no address. */
  datatype DaemonState = Alive | Dead

  // ---------------------------------------------------------------------
  // the reply format

  /** One `key:value` item: the text before the first colon and the integer after it. */
  function ParseItem(item: string): Option<(string, int)> {
    var parts := Split(item, ':');
    if |parts| < 2 then None
    else
      match ParseInt(parts[1])
      case None => None
      case Some(v) => Some((parts[0], v))
  }

  /** Reads the items in order into `acc`, a later key overwriting an earlier one; None at a malformed item. */
  function ParseFrom(acc: Sample, items: seq<string>): Option<Sample>
    decreases |items|
  {
    if |items| == 0 then Some(acc)
    else
      match ParseItem(items[0])
      case None => None
      case Some((k, v)) => ParseFrom(acc[k := v], items[1..])
  }

  /** The payload's items: the comma-separated pieces of the reply. */
  function Payload(data: string): Option<Sample> {
    ParseFrom(map[], Split(data, ','))
  }

  /** The declared fields the reply carried. */
  function Filter(result: Sample): (r: Sample)
    ensures r.Keys == result.Keys * Fields()
    ensures forall k :: k in r ==> r[k] == result[k]
  {
    map k | k in Fields() && k in result :: result[k]
  }

  /** What a successful `collect` makes of a reply; None when the reply is malformed. */
  function Received(data: string): Option<Sample> {
    match Payload(data)
    case None => None
    case Some(result) => Some(Filter(result))
  }

  /** One item of the guest's reply. */
  function Item(key: string, value: int): string {
    key + ":" + IntToString(value)
  }

  /** The fields of HostMemory's `collect` the guest side sends. */
  predicate HasMemoryFigures(data: Sample) {
    "mem_available" in data && "mem_free" in data && "swap_in" in data && "swap_out" in data
  }

  /** The keys of the guest's reply, in the order it sends them. */
  const ResponseKeys: seq<string> :=
    ["mem_available", "mem_unused", "swap_in", "swap_out", "major_fault", "minor_fault"]

  /** `key:value` items, one per key. */
  function Items(keys: seq<string>, values: seq<int>): (r: seq<string>)
    requires |keys| == |values|
    ensures |r| == |keys|
    decreases |keys|
  {
    if |keys| == 0 then [] else [Item(keys[0], values[0])] + Items(keys[1..], values[1..])
  }

  /** `acc` with `keys[i] := values[i]` applied in order. */
  function Updated(acc: Sample, keys: seq<string>, values: seq<int>): Sample
    requires |keys| == |values|
    decreases |keys|
  {
    if |keys| == 0 then acc else Updated(acc[keys[0] := values[0]], keys[1..], values[1..])
  }

  /** The values the guest sends, in the order of `ResponseKeys`. */
  function ResponseValues(data: Sample, majflt: int, minflt: int): seq<int>
    requires HasMemoryFigures(data)
  {
    [data["mem_available"], data["mem_free"], data["swap_in"], data["swap_out"], majflt, minflt]
  }

  /**
   * `send_stats`: the guest's reply, from its HostMemory figures and its
   * fault counters; the guest's `mem_free` goes out as `mem_unused`.
   */
  function StatsResponse(data: Sample, majflt: int, minflt: int): string
    requires HasMemoryFigures(data)
  {
    Join(Items(ResponseKeys, ResponseValues(data, majflt, minflt)), ",")
  }

  // ---------------------------------------------------------------------
  // the collector

  /** The loop over the reply's items. */
  method ParsePayload(data: string) returns (r: Option<Sample>)
    ensures r == Payload(data)
  {
    var items := Split(data, ',');
    var result: Sample := map[];
    var i := 0;
    while i < |items|
      invariant 0 <= i <= |items|
      invariant ParseFrom(map[], items) == ParseFrom(result, items[i..])
      decreases |items| - i
    {
      assert items[i..][1..] == items[i + 1..];
      var parts := Split(items[i], ':');
      if |parts| < 2 {
        return None;
      }
      var v := ParseInt(parts[1]);
      if v.None? {
        return None;
      }
      result := result[parts[0] := v.value];
      i := i + 1;
    }
    return Some(result);
  }

  /** The loop over `getFields` that keeps the fields the reply carried. */
  method FilterFields(result: Sample) returns (ret: Sample)
    ensures ret == Filter(result)
  {
    ret := map[];
    var todo := Fields();
    while todo != {}
      invariant todo <= Fields()
      invariant ret == map k | k in Fields() - todo && k in result :: result[k]
      decreases todo
    {
      var key := Pick(todo);
      if key in result {
        ret := ret[key := result[key]];
      }
      todo := todo - {key};
    }
  }

  class GuestNetworkDaemon {
    /** The guest's address, None when the name-to-address helper gave none. */
    const ip: Option<string>
    var state: DaemonState
    /** Whether a socket is open (`self.socket` is not None). */
    var connected: bool

    constructor (address: Option<string>)
      ensures ip == address && state == Alive && !connected
    {
      ip := address;
      state := Alive;
      connected := false;
    }

    /**
     * `collect`, given whether connecting succeeds (asked only when no
     * socket is open) and the reply to `stats` (None when sending or
     * receiving failed).  Err is the exception a malformed reply raises,
     * which the monitor does not handle.
     */
    method Collect(connects: bool, reply: Option<string>) returns (r: Result<Collected, string>)
      modifies this
      ensures old(state) == Dead ==> r == Ok(Data(map[])) && unchanged(this)
      ensures old(state) == Alive && ip.None? ==>
        r.Ok? && r.value.CollectionError? && state == Dead && connected == old(connected)
      ensures old(state) == Alive && ip.Some? && !old(connected) && !connects ==>
        r.Ok? && r.value.CollectionError? && state == Alive && !connected
      ensures old(state) == Alive && ip.Some? && (old(connected) || connects) && reply.None? ==>
        r.Ok? && r.value.CollectionError? && state == Alive && !connected
      ensures old(state) == Alive && ip.Some? && (old(connected) || connects) && reply.Some? ==>
        state == Alive && connected &&
        (Received(reply.value).None? ==> r.Err?) &&
        (Received(reply.value).Some? ==> r == Ok(Data(Received(reply.value).value)))
    {
      if state == Dead {
        return Ok(Data(map[]));
      }
      if ip.None? {
        state := Dead;
        return Ok(CollectionError("No IP address for guest"));
      }
      if !connected {
        if !connects {
          return Ok(CollectionError("Network connection failed"));
        }
        connected := true;
      }
      if reply.None? {
        connected := false;
        return Ok(CollectionError("Network communication failed"));
      }
      state := Alive;
      var result := ParsePayload(reply.value);
      if result.None? {
        return Err("malformed reply");
      }
      var ret := FilterFields(result.value);
      return Ok(Data(ret));
    }
  }

  // ---------------------------------------------------------------------
  // properties

  /** A collected sample never holds a key outside `getFields`. */
  lemma ReceivedKeys(data: string)
    requires Received(data).Some?
    ensures Received(data).value.Keys <= Fields()
  {
  }

  /**
   * The wire round trip: the host reads back exactly the six fields the
   * guest sent, with the values sent, `mem_unused` carrying the guest's
   * `mem_free`.
   */
  lemma StatsRoundTrip(data: Sample, majflt: int, minflt: int)
    requires HasMemoryFigures(data)
    ensures Received(StatsResponse(data, majflt, minflt)) == Some(map[
      "mem_available" := data["mem_available"], "mem_unused" := data["mem_free"],
      "swap_in" := data["swap_in"], "swap_out" := data["swap_out"],
      "major_fault" := majflt, "minor_fault" := minflt])
  {
    var values := ResponseValues(data, majflt, minflt);
    ResponseKeysClean();
    ItemsCommaFree(ResponseKeys, values);
    SplitJoin(Items(ResponseKeys, values), ',');
    ParseItems(map[], ResponseKeys, values);
    var expected := Updated(map[], ResponseKeys, values);
    ResponseUpdated(values);
    assert Filter(expected) == expected;
  }

  /** A key sent twice is read with the value sent last. */
  lemma LaterDuplicateWins(key: string, first: int, second: int)
    requires ':' !in key && ',' !in key
    ensures Payload(Item(key, first) + "," + Item(key, second)) == Some(map[key := second])
  {
    var keys := [key, key];
    var values := [first, second];
    ItemsCommaFree(keys, values);
    assert Join(Items(keys, values), ",") == Item(key, first) + "," + Item(key, second);
    SplitJoin(Items(keys, values), ',');
    ParseItems(map[], keys, values);
    assert keys[1..] == [key] && values[1..] == [second];
    assert Updated(map[], keys, values) == Updated(map[key := first], [key], [second]);
    assert Updated(map[key := first], [key], [second]) == map[key := first][key := second];
    assert map[key := first][key := second] == map[key := second];
  }

  /** The reply's keys hold neither separator, so each item splits back into one key and one value. */
  lemma ResponseKeysClean()
    ensures forall i :: 0 <= i < |ResponseKeys| ==> ':' !in ResponseKeys[i] && ',' !in ResponseKeys[i]
  {
  }

  /** The six keys written in order make the map the host expects. */
  lemma ResponseUpdated(values: seq<int>)
    requires |values| == 6
    ensures Updated(map[], ResponseKeys, values) == map[
      "mem_available" := values[0], "mem_unused" := values[1], "swap_in" := values[2],
      "swap_out" := values[3], "major_fault" := values[4], "minor_fault" := values[5]]
  {
  }

  /** Items whose keys have no comma have no comma. */
  lemma {:induction false} ItemsCommaFree(keys: seq<string>, values: seq<int>)
    requires |keys| == |values|
    requires forall i :: 0 <= i < |keys| ==> ',' !in keys[i]
    ensures forall i :: 0 <= i < |keys| ==> ',' !in Items(keys, values)[i]
    decreases |keys|
  {
    if |keys| > 0 {
      ItemClean(keys[0], values[0], ',');
      ItemsCommaFree(keys[1..], values[1..]);
      assert forall i :: 1 <= i < |keys| ==> Items(keys, values)[i] == Items(keys[1..], values[1..])[i - 1];
    }
  }

  /** Reading items written from keys without a colon applies their updates in order. */
  lemma {:induction false} ParseItems(acc: Sample, keys: seq<string>, values: seq<int>)
    requires |keys| == |values|
    requires forall i :: 0 <= i < |keys| ==> ':' !in keys[i]
    ensures ParseFrom(acc, Items(keys, values)) == Some(Updated(acc, keys, values))
    decreases |keys|
  {
    if |keys| > 0 {
      ItemRoundTrip(keys[0], values[0]);
      ParseItems(acc[keys[0] := values[0]], keys[1..], values[1..]);
      assert Items(keys, values)[1..] == Items(keys[1..], values[1..]);
    }
  }

  /** An item reads back as the key and value written, for a key without a colon. */
  lemma ItemRoundTrip(key: string, value: int)
    requires ':' !in key
    ensures ParseItem(Item(key, value)) == Some((key, value))
  {
    ItemClean(key, value, ':');
    SplitPrefix(key, IntToString(value), ':');
    SplitNoSep(IntToString(value), ':');
    ParseIntToString(value);
  }

  /** Neither a comma nor a colon can appear in an item's number. */
  lemma ItemClean(key: string, value: int, c: char)
    requires c == ',' || c == ':'
    requires c !in key
    ensures c !in IntToString(value) && (c == ',' ==> c !in Item(key, value))
  {
    var digits := NatToString(if value < 0 then -value else value);
    assert forall i :: 0 <= i < |digits| ==> IsDigit(digits[i]);
    assert c !in digits;
    if value < 0 {
      assert IntToString(value) == "-" + digits;
    }
  }
}
