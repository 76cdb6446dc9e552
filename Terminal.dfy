/** The `StreamTerminal` overlay of src/pages/Admin.tsx: a log buffer fed by one server-sent
    event stream at a time, opened when the overlay is shown and closed when it is hidden. */
module Terminal {
  import opened Teams
  import opened Text

  // ---------------------------------------------------------------------
  // Log-line colouring
  // ---------------------------------------------------------------------

  const CHECK_MARK: string := "\U{2713}"
  const BALLOT_X: string := "\U{2717}"

  datatype LogStyle = Success | Failure | Neutral

  /** `getLogStyle`: a check mark anywhere wins, then a ballot X, otherwise neutral. */
  function StyleOf(line: string): (st: LogStyle)
    ensures st == Success <==> Occurs(line, CHECK_MARK)
    ensures st == Failure <==> !Occurs(line, CHECK_MARK) && Occurs(line, BALLOT_X)
    ensures st == Neutral <==> !Occurs(line, CHECK_MARK) && !Occurs(line, BALLOT_X)
  {
    if Includes(line, CHECK_MARK) then Success
    else if Includes(line, BALLOT_X) then Failure
    else Neutral
  }

  function Color(st: LogStyle): string
  {
    match st
    case Success => "#22c55e"
    case Failure => "#ef4444"
    case Neutral => "#94a3b8"
  }

  /** A line holding both marks is coloured as a success. */
  lemma CheckMarkWins(line: string)
    requires Occurs(line, CHECK_MARK) && Occurs(line, BALLOT_X)
    ensures Color(StyleOf(line)) == "#22c55e"
  {
  }

  /** One rendered log line: `[LOG_i] > text` in the colour of its style. */
  datatype LogLine = LogLine(index: nat, text: string, style: LogStyle)

  // ---------------------------------------------------------------------
  // Event streams
  // ---------------------------------------------------------------------

  /** An `EventSource`: the URL it was opened on and whether it is still open. */
  datatype EventStream = EventStream(url: string, live: bool)

  /** Every stream closed. */
  function CloseAll(ss: seq<EventStream>): (r: seq<EventStream>)
    ensures |r| == |ss|
    ensures forall i :: 0 <= i < |ss| ==> r[i] == ss[i].(live := false)
  {
    if ss == [] then [] else CloseAll(ss[..|ss| - 1]) + [ss[|ss| - 1].(live := false)]
  }

  function LiveCount(ss: seq<EventStream>): nat
  {
    if ss == [] then 0 else LiveCount(ss[..|ss| - 1]) + (if ss[|ss| - 1].live then 1 else 0)
  }

  /** When only the newest stream may still be open, at most one stream is open. */
  lemma {:induction false} AtMostOneLive(ss: seq<EventStream>)
    requires forall i :: 0 <= i < |ss| - 1 ==> !ss[i].live
    ensures LiveCount(ss) <= 1
  {
    if ss != [] {
      NoneLive(ss[..|ss| - 1]);
    }
  }

  lemma {:induction false} NoneLive(ss: seq<EventStream>)
    requires forall i :: 0 <= i < |ss| ==> !ss[i].live
    ensures LiveCount(ss) == 0
  {
    if ss != [] {
      NoneLive(ss[..|ss| - 1]);
    }
  }

  lemma {:induction false} CloseAllNoneLive(ss: seq<EventStream>)
    ensures LiveCount(CloseAll(ss)) == 0
  {
    NoneLive(CloseAll(ss));
  }

  /** Closing streams that are all closed already changes nothing. */
  lemma CloseAllIdle(ss: seq<EventStream>)
    requires forall i :: 0 <= i < |ss| ==> !ss[i].live
    ensures CloseAll(ss) == ss
  {
    assert forall i :: 0 <= i < |ss| ==> CloseAll(ss)[i] == ss[i];
  }

  // ---------------------------------------------------------------------
  // The overlay component
  // ---------------------------------------------------------------------

  class StreamTerminal {
    /** The `open` and `url` props the effect last ran with. */
    var shown: bool
    var url: string
    /** `logs` */
    var logs: seq<string>
    /** Every stream the component has created, oldest first. */
    var streams: seq<EventStream>
    /** `eventRef.current`, as an index into `streams`. */
    var eventRef: Option<nat>
    /** The stream the pending effect cleanup will close, if the last effect opened one. */
    var cleanup: Option<nat>

    /** Only the newest stream can be open, and only while the overlay is shown; both the
        reference and the cleanup always name the newest stream. */
    ghost predicate Valid()
      reads this
    {
      && (forall i :: 0 <= i < |streams| - 1 ==> !streams[i].live)
      && (eventRef.Some? ==> eventRef.value == |streams| - 1)
      && (cleanup.Some? ==> cleanup.value == |streams| - 1)
      && (cleanup.Some? <==> shown)
      && (shown ==> |streams| > 0 && streams[|streams| - 1].url == url)
      && (|streams| > 0 && streams[|streams| - 1].live ==> eventRef.Some? && cleanup.Some?)
    }

    /** The overlay holds an open stream. */
    predicate Live()
      reads this
    {
      |streams| > 0 && streams[|streams| - 1].live
    }

    /** Mounted hidden: the effect returns before touching anything. */
    constructor (initialUrl: string)
      ensures Valid()
      ensures !shown && url == initialUrl && logs == [] && streams == []
      ensures eventRef == None && cleanup == None
    {
      shown := false;
      url := initialUrl;
      logs := [];
      streams := [];
      eventRef := None;
      cleanup := None;
    }

    /** The effect's cleanup, `() => es.close()`. */
    method RunCleanup()
      requires Valid()
      modifies this
      ensures streams == CloseAll(old(streams)) && cleanup == None
      ensures logs == old(logs) && eventRef == old(eventRef)
      ensures shown == old(shown) && url == old(url)
    {
      if cleanup.Some? {
        streams := streams[cleanup.value := streams[cleanup.value].(live := false)];
      }
      cleanup := None;
    }

    /** A render with props `open` and `newUrl`. When either changed since the effect last
        ran, the old cleanup runs and then the effect: if shown, it clears the buffer, closes
        the stream in `eventRef` and opens one new stream on the URL. */
    method Render(open: bool, newUrl: string)
      requires Valid()
      modifies this
      ensures Valid()
      ensures shown == open && url == newUrl
      ensures old(shown) == open && old(url) == newUrl ==>
        logs == old(logs) && streams == old(streams) && eventRef == old(eventRef) && cleanup == old(cleanup)
      ensures (old(shown) != open || old(url) != newUrl) && open ==>
        && logs == []
        && streams == CloseAll(old(streams)) + [EventStream(newUrl, true)]
        && eventRef == Some(|old(streams)|) && cleanup == Some(|old(streams)|)
      ensures (old(shown) != open || old(url) != newUrl) && !open ==>
        && logs == old(logs)
        && streams == CloseAll(old(streams))
        && eventRef == old(eventRef) && cleanup == None
    {
      if shown == open && url == newUrl {
        return;
      }
      RunCleanup();
      shown, url := open, newUrl;
      if open {
        logs := [];
        if eventRef.Some? {
          streams := streams[eventRef.value := streams[eventRef.value].(live := false)];
        }
        assert streams == CloseAll(old(streams));
        streams := streams + [EventStream(newUrl, true)];
        eventRef := Some(|streams| - 1);
        cleanup := Some(|streams| - 1);
      }
    }

    /** `es.onmessage` of stream `k`: a stream that is still open appends its data. */
    method OnMessage(k: nat, data: string)
      requires Valid()
      modifies this
      ensures Valid()
      ensures logs == if k < |streams| && streams[k].live then old(logs) + [data] else old(logs)
      ensures streams == old(streams) && eventRef == old(eventRef) && cleanup == old(cleanup)
      ensures shown == old(shown) && url == old(url)
    {
      if k < |streams| && streams[k].live {
        logs := logs + [data];
      }
    }

    /** `es.onerror` of stream `k`: it is closed and the reference cleared; nothing reopens it. */
    method OnError(k: nat)
      requires Valid()
      modifies this
      ensures Valid()
      ensures k < |old(streams)| && old(streams)[k].live ==>
        streams == old(streams)[k := old(streams)[k].(live := false)] && eventRef == None && !Live()
      ensures !(k < |old(streams)| && old(streams)[k].live) ==>
        streams == old(streams) && eventRef == old(eventRef)
      ensures logs == old(logs) && cleanup == old(cleanup) && shown == old(shown) && url == old(url)
    {
      if k < |streams| && streams[k].live {
        streams := streams[k := streams[k].(live := false)];
        eventRef := None;
      }
    }

    /** The overlay's body: nothing while hidden, else every log line in arrival order. */
    function Display(): (r: Option<seq<LogLine>>)
      reads this
      ensures r.Some? <==> shown
      ensures r.Some? ==> |r.value| == |logs|
      ensures r.Some? ==> forall i :: 0 <= i < |logs| ==> r.value[i] == LogLine(i, logs[i], StyleOf(logs[i]))
    {
      if !shown then None
      else Some(seq(|logs|, i requires 0 <= i < |logs| reads this => LogLine(i, logs[i], StyleOf(logs[i]))))
    }

    /** Delivers `msgs` to the open stream one after another. */
    method DeliverAll(msgs: seq<string>)
      requires Valid() && Live()
      modifies this
      ensures Valid() && Live()
      ensures logs == old(logs) + msgs
      ensures streams == old(streams) && eventRef == old(eventRef) && cleanup == old(cleanup)
      ensures shown == old(shown) && url == old(url)
    {
      for i := 0 to |msgs|
        invariant Valid() && Live()
        invariant logs == old(logs) + msgs[..i]
        invariant streams == old(streams) && eventRef == old(eventRef) && cleanup == old(cleanup)
        invariant shown == old(shown) && url == old(url)
      {
        OnMessage(|streams| - 1, msgs[i]);
        assert msgs[..i + 1] == msgs[..i] + [msgs[i]];
      }
    }
  }

  /** Open the overlay, then deliver `msgs`: the buffer is exactly `msgs` in order, and one
      stream on `url` is open. */
  method OpenAndReceive(t: StreamTerminal, url: string, msgs: seq<string>)
    requires t.Valid() && !t.shown
    modifies t
    ensures t.Valid() && t.Live() && t.logs == msgs
    ensures LiveCount(t.streams) == 1 && t.streams[|t.streams| - 1].url == url
  {
    t.Render(true, url);
    t.DeliverAll(msgs);
    AtMostOneLive(t.streams);
    assert t.streams[..|t.streams| - 1] == CloseAll(old(t.streams));
    CloseAllNoneLive(old(t.streams));
  }

  /** Hiding the overlay closes every stream and keeps the buffer. */
  method HideKeepsLogs(t: StreamTerminal)
    requires t.Valid() && t.shown
    modifies t
    ensures t.Valid() && !t.Live() && LiveCount(t.streams) == 0
    ensures t.logs == old(t.logs)
  {
    t.Render(false, t.url);
    CloseAllNoneLive(old(t.streams));
  }
}
