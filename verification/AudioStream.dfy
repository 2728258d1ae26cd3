/** The audio sender: sendDataSocket of src/audiostreamer/socketmanager.cpp inside the record loop
    of src/audiostreamer/audiostreamer.cpp. */
module AudioStream {
  type byte = bv8

  /** One turn of the socket: whether select reports it writable, and what send then answers. A
      positive answer is the number of bytes taken, never more than were offered. */
  datatype Attempt = Attempt(writable: bool, accepted: int)

  /** What the peer has received, and how the socket will behave; past the end it fails. */
  datatype Wire = Wire(delivered: seq<byte>, script: seq<Attempt>)

  function Min(a: int, b: int): int { if a <= b then a else b }

  function Answer(w: Wire, size: nat): int {
    if w.script == [] then -1 else Min(w.script[0].accepted, size)
  }

  function AfterSend(w: Wire, data: seq<byte>): Wire {
    var n := Answer(w, |data|);
    Wire(if n > 0 then w.delivered + data[..n] else w.delivered, if w.script == [] then [] else w.script[1..])
  }

  predicate Blocked(w: Wire, timeout: int) { timeout > 0 && (w.script == [] || !w.script[0].writable) }

  /** sendDataSocket on values: the wire afterwards and the result. */
  function SendAll(w: Wire, data: seq<byte>, timeout: int): (Wire, bool)
    decreases |data|
  {
    var n := Answer(w, |data|);
    if Blocked(w, timeout) then (w, false)
    else if n <= 0 then (AfterSend(w, data), false)
    else if n == |data| then (AfterSend(w, data), true)
    else SendAll(AfterSend(w, data), data[n..], timeout)
  }

  class Socket {
    var delivered: seq<byte>
    var script: seq<Attempt>

    function Snapshot(): Wire
      reads this
    {
      Wire(delivered, script)
    }

    constructor (script: seq<Attempt>)
      ensures Snapshot() == Wire([], script)
    {
      this.delivered, this.script := [], script;
    }

    method CanSend() returns (ok: bool)
      ensures ok == (script != [] && script[0].writable)
    {
      ok := script != [] && script[0].writable;
    }

    method Send(buffer: array<byte>, offset: nat, size: nat) returns (bytes: int)
      requires offset + size <= buffer.Length
      modifies this
      ensures bytes == Answer(old(Snapshot()), size) <= size
      ensures Snapshot() == AfterSend(old(Snapshot()), buffer[offset..offset + size])
    {
      if script == [] { return -1; }
      bytes := Min(script[0].accepted, size);
      script := script[1..];
      if bytes > 0 {
        assert buffer[offset..offset + size][..bytes] == buffer[offset..offset + bytes];
        delivered := delivered + buffer[offset..offset + bytes];
      }
    }

    /** The do-while loop: `offset` is ptr, and the remaining count is what shrinks. */
    method SendDataSocket(data: array<byte>, length: nat, timeout: int) returns (success: bool)
      requires length <= data.Length
      modifies this
      ensures (Snapshot(), success) == SendAll(old(Snapshot()), data[..length], timeout)
    {
      var offset, count := 0, length;
      while true
        invariant 0 <= offset && 0 <= count && offset + count == length
        invariant SendAll(Snapshot(), data[offset..length], timeout) == SendAll(old(Snapshot()), data[..length], timeout)
        decreases count
      {
        if timeout > 0 {
          var ready := CanSend();
          if !ready { return false; }
        }
        ghost var rest := data[offset..length];
        var bytes := Send(data, offset, count);
        if bytes > 0 {
          assert rest[bytes..] == data[offset + bytes..length];
          offset := offset + bytes;
          count := count - bytes;
          if count == 0 { return true; }
        } else {
          return false;
        }
      }
    }
  }

  // ---- What sendDataSocket promises ----

  /** It delivers a prefix of the data, and reports success exactly when that is all of it; no
      data at all is never a success. */
  lemma {:induction false} SendDeliversPrefix(w: Wire, data: seq<byte>, timeout: int) returns (k: nat)
    ensures k <= |data| && SendAll(w, data, timeout).0.delivered == w.delivered + data[..k]
    ensures SendAll(w, data, timeout).1 <==> k == |data| && data != []
    decreases |data|
  {
    var n := Answer(w, |data|);
    if Blocked(w, timeout) || n <= 0 {
      k := 0;
      assert w.delivered + data[..0] == w.delivered;
    } else if n == |data| {
      k := n;
    } else {
      var rest := SendDeliversPrefix(AfterSend(w, data), data[n..], timeout);
      k := n + rest;
      Joined(w.delivered, data, n, rest);
    }
  }

  lemma Joined(before: seq<byte>, data: seq<byte>, n: nat, k: nat)
    requires n + k <= |data|
    ensures (before + data[..n]) + data[n..][..k] == before + data[..n + k]
  {
    assert data[..n] + data[n..][..k] == data[..n + k];
    Associate(before, data[..n], data[n..][..k]);
  }

  // ---- When it succeeds, said of the socket's answers alone ----

  /** An answer that moves the send on: the socket is writable, if that is asked, and takes something. */
  predicate Takes(a: Attempt, timeout: int) { a.accepted > 0 && (timeout > 0 ==> a.writable) }

  predicate AllTake(script: seq<Attempt>, timeout: int) { forall a | a in script :: Takes(a, timeout) }

  /** What a run of answers takes in all. */
  function Taken(script: seq<Attempt>): int {
    if script == [] then 0 else script[0].accepted + Taken(script[1..])
  }

  /** The first n answers take at least m bytes, each of them some. */
  predicate Enough(script: seq<Attempt>, n: nat, m: nat, timeout: int) {
    n <= |script| && AllTake(script[..n], timeout) && Taken(script[..n]) >= m
  }

  /** The first n answers take less than m bytes and the next one, if any, takes nothing. */
  predicate Stuck(script: seq<Attempt>, n: nat, m: nat, timeout: int) {
    && n <= |script| && AllTake(script[..n], timeout) && Taken(script[..n]) < m
    && (n < |script| ==> !Takes(script[n], timeout))
  }

  lemma TakenCons(script: seq<Attempt>, n: nat, timeout: int)
    requires n < |script| && Takes(script[0], timeout)
    ensures Taken(script[..n + 1]) == script[0].accepted + Taken(script[1..][..n])
    ensures AllTake(script[..n + 1], timeout) <==> AllTake(script[1..][..n], timeout)
  {
    assert script[..n + 1] == [script[0]] + script[1..][..n];
    assert script[..n + 1][1..] == script[1..][..n];
  }

  /** What n answers of the script account for: they were enough and no more than that, or the send
      got stuck after them with what they took delivered. */
  predicate Followed(w: Wire, data: seq<byte>, timeout: int, n: nat, w': Wire, success: bool) {
    if success
    then n > 0 && Enough(w.script, n, |data|, timeout) && !Enough(w.script, n - 1, |data|, timeout) && w'.script == w.script[n..]
    else
      && Stuck(w.script, n, |data|, timeout) && 0 <= Taken(w.script[..n])
      && w'.delivered == w.delivered + data[..Taken(w.script[..n])]
  }

  /** One answer more in front. */
  lemma FollowedOn(w: Wire, data: seq<byte>, timeout: int, rest: nat, w': Wire, success: bool)
    requires w.script != [] && Takes(w.script[0], timeout) && w.script[0].accepted < |data|
    requires Followed(AfterSend(w, data), data[w.script[0].accepted..], timeout, rest, w', success)
    ensures Followed(w, data, timeout, rest + 1, w', success)
  {
    var a := w.script[0].accepted;
    if success {
      TakenCons(w.script, rest - 1, timeout);
      assert w.script[1..][rest..] == w.script[rest + 1..];
      TakenCons(w.script, rest, timeout);
    } else {
      StuckOn(w, data, timeout, rest, w');
    }
  }

  lemma StuckOn(w: Wire, data: seq<byte>, timeout: int, rest: nat, w': Wire)
    requires w.script != [] && Takes(w.script[0], timeout) && w.script[0].accepted < |data|
    requires Followed(AfterSend(w, data), data[w.script[0].accepted..], timeout, rest, w', false)
    ensures Followed(w, data, timeout, rest + 1, w', false)
  {
    var a, k := w.script[0].accepted, Taken(w.script[1..][..rest]);
    TakenCons(w.script, rest, timeout);
    Joined(w.delivered, data, a, k);
  }

  /** sendDataSocket goes on until the answers are enough or stuck. */
  lemma {:induction false} SendFollowsAnswers(w: Wire, data: seq<byte>, timeout: int) returns (n: nat)
    requires data != []
    ensures Followed(w, data, timeout, n, SendAll(w, data, timeout).0, SendAll(w, data, timeout).1)
    decreases |data|
  {
    if w.script == [] || !Takes(w.script[0], timeout) {
      n := 0;
      assert w.delivered + data[..0] == w.delivered;
    } else if w.script[0].accepted >= |data| {
      n := 1;
      TakenCons(w.script, 0, timeout);
    } else {
      var next, rest := AfterSend(w, data), data[w.script[0].accepted..];
      n := SendFollowsAnswers(next, rest, timeout);
      FollowedOn(w, data, timeout, n, SendAll(next, rest, timeout).0, SendAll(next, rest, timeout).1);
      n := n + 1;
    }
  }

  lemma {:induction false} TakenGrows(script: seq<Attempt>, n: nat, n': nat, timeout: int)
    requires n <= n' <= |script| && AllTake(script[..n'], timeout)
    ensures Taken(script[..n]) <= Taken(script[..n'])
  {
    if n' > 0 {
      assert script[0] == script[..n'][0];
      TakenCons(script, n' - 1, timeout);
      if n > 0 {
        TakenGrows(script[1..], n - 1, n' - 1, timeout);
        assert AllTake(script[..n], timeout) by { PrefixTakes(script, n, n', timeout); }
        TakenCons(script, n - 1, timeout);
      } else {
        TakenGrows(script[1..], 0, n' - 1, timeout);
      }
    }
  }

  lemma PrefixTakes(script: seq<Attempt>, n: nat, n': nat, timeout: int)
    requires n <= n' <= |script| && AllTake(script[..n'], timeout)
    ensures AllTake(script[..n], timeout)
  {
    assert script[..n] == script[..n'][..n];
  }

  lemma EnoughIsNotStuck(script: seq<Attempt>, n: nat, stuck: nat, m: nat, timeout: int)
    ensures !(Enough(script, n, m, timeout) && Stuck(script, stuck, m, timeout))
  {
    if n <= stuck <= |script| && AllTake(script[..stuck], timeout) {
      TakenGrows(script, n, stuck, timeout);
    } else if stuck < n <= |script| && AllTake(script[..n], timeout) {
      assert script[stuck] == script[..n][stuck];
    }
  }

  /** When sendDataSocket succeeds: exactly if there is data and the first answers of the socket,
      some number of them, all take something and together as much as that. */
  lemma SendSucceedsWhen(w: Wire, data: seq<byte>, timeout: int)
    ensures SendAll(w, data, timeout).1 <==> data != [] && exists n :: Enough(w.script, n, |data|, timeout)
  {
    if data != [] {
      var n := SendFollowsAnswers(w, data, timeout);
      if !SendAll(w, data, timeout).1 {
        forall n'
          ensures !Enough(w.script, n', |data|, timeout)
        {
          EnoughIsNotStuck(w.script, n', n, |data|, timeout);
        }
      }
    }
  }

  // ---- The record loop ----

  const READ_AUDIO_MAX := 2048
  const BUFFER_OUTPUT_SIZE := 1452

  /** What AudioRecord::read answers in one turn of the loop. */
  datatype Capture = ReadFailed | Captured(bytes: seq<byte>)

  predicate ValidCapture(c: Capture) { c.Captured? ==> 0 < |c.bytes| <= BUFFER_OUTPUT_SIZE }

  function Chunk(c: Capture): seq<byte> { if c.Captured? then c.bytes else [] }

  /** All the captured bytes in order. */
  function Captures(cs: seq<Capture>): seq<byte> {
    if cs == [] then [] else Chunk(cs[0]) + Captures(cs[1..])
  }

  /** The loop on values, over the turns until gRunning is seen false: the wire afterwards, and
      whether it was the flag, not a failed send, that ended it. */
  function RecordAll(w: Wire, cs: seq<Capture>): (Wire, bool)
    decreases cs
  {
    if cs == [] then (w, true)
    else if cs[0].ReadFailed? then RecordAll(w, cs[1..])
    else
      var (w', ok) := SendAll(w, cs[0].bytes, 0);
      if ok then RecordAll(w', cs[1..]) else (w', false)
  }

  /** AudioRecord::read: fills the front of the one buffer. */
  method Read(buffer: array<byte>, c: Capture) returns (length: int)
    requires buffer.Length == READ_AUDIO_MAX && ValidCapture(c)
    modifies buffer
    ensures c.ReadFailed? ==> length <= 0
    ensures c.Captured? ==> length == |c.bytes| && buffer[..length] == c.bytes
  {
    if c.ReadFailed? { return -1; }
    length := |c.bytes|;
    forall i | 0 <= i < length { buffer[i] := c.bytes[i]; }
  }

  method RecordThread(socket: Socket, cs: seq<Capture>) returns (stopped: bool)
    requires forall c | c in cs :: ValidCapture(c)
    modifies socket
    ensures (socket.Snapshot(), stopped) == RecordAll(old(socket.Snapshot()), cs)
  {
    var buffer := new byte[READ_AUDIO_MAX];
    var turn := 0;
    while turn < |cs|
      invariant turn <= |cs| && fresh(buffer) && buffer.Length == READ_AUDIO_MAX
      invariant RecordAll(socket.Snapshot(), cs[turn..]) == RecordAll(old(socket.Snapshot()), cs)
    {
      forall i | 0 <= i < READ_AUDIO_MAX { buffer[i] := 0; }
      assert cs[turn..][1..] == cs[turn + 1..];
      var length := Read(buffer, cs[turn]);
      turn := turn + 1;
      if length <= 0 { continue; }
      var ok := socket.SendDataSocket(buffer, length, 0);
      if !ok { return false; }
    }
    return true;
  }

  lemma {:induction false} CapturesSplit(cs: seq<Capture>, i: nat)
    requires i <= |cs|
    ensures Captures(cs) == Captures(cs[..i]) + Captures(cs[i..])
  {
    if i == 0 {
      assert cs[..0] == [] && cs[0..] == cs;
    } else {
      CapturesSplit(cs[1..], i - 1);
      assert cs[..i][1..] == cs[1..][..i - 1] && cs[1..][i - 1..] == cs[i..];
    }
  }

  /** The stream over a whole session: stopping by the flag leaves every captured byte delivered;
      a failed send leaves every earlier chunk delivered whole and a strict prefix of its own. */
  lemma {:induction false} SessionDelivers(w: Wire, cs: seq<Capture>) returns (i: nat, k: nat)
    requires forall c | c in cs :: ValidCapture(c)
    ensures var (w', stopped) := RecordAll(w, cs);
      if stopped then w'.delivered == w.delivered + Captures(cs)
      else
        && i < |cs| && cs[i].Captured? && k < |cs[i].bytes|
        && w'.delivered == w.delivered + (Captures(cs[..i]) + cs[i].bytes[..k])
    decreases cs
  {
    i, k := 0, 0;
    if cs == [] {
      assert w.delivered + [] == w.delivered;
    } else {
      assert cs[0] in cs;
      var first := Chunk(cs[0]);
      var w1, ok := w, true;
      if cs[0].Captured? {
        k := SendDeliversPrefix(w, first, 0);
        w1, ok := SendAll(w, first, 0).0, SendAll(w, first, 0).1;
      }
      if ok {
        assert w1.delivered == w.delivered + first;
        i, k := SessionDelivers(w1, cs[1..]);
        if RecordAll(w1, cs[1..]).1 { WholeAfter(w.delivered, cs); } else { PartAfter(w.delivered, cs, i, k); }
        i := i + 1;
      } else {
        assert cs[..0] == [];
        assert Captures([]) + first[..k] == first[..k];
      }
    }
  }

  lemma WholeAfter(before: seq<byte>, cs: seq<Capture>)
    requires cs != []
    ensures (before + Chunk(cs[0])) + Captures(cs[1..]) == before + Captures(cs)
  {
    Associate(before, Chunk(cs[0]), Captures(cs[1..]));
  }

  lemma PartAfter(before: seq<byte>, cs: seq<Capture>, i: nat, k: nat)
    requires i + 1 < |cs| && cs[i + 1].Captured? && k <= |cs[i + 1].bytes|
    ensures (before + Chunk(cs[0])) + (Captures(cs[1..][..i]) + cs[1..][i].bytes[..k])
         == before + (Captures(cs[..i + 1]) + cs[i + 1].bytes[..k])
  {
    var whole, part := Captures(cs[1..][..i]), cs[i + 1].bytes[..k];
    assert cs[..i + 1][1..] == cs[1..][..i];
    assert Captures(cs[..i + 1]) == Chunk(cs[0]) + whole;
    Associate(before, Chunk(cs[0]), whole + part);
    Associate(Chunk(cs[0]), whole, part);
  }

  lemma Associate(a: seq<byte>, b: seq<byte>, c: seq<byte>)
    ensures (a + b) + c == a + (b + c)
  {}

  /** Some chunk meets an answer that takes nothing before it has been taken whole; the chunks
      before it used up just the answers that were enough for them. */
  ghost predicate Breaks(script: seq<Attempt>, cs: seq<Capture>)
    decreases cs
  {
    if cs == [] then false
    else if cs[0].ReadFailed? then Breaks(script, cs[1..])
    else
      || (exists n :: Stuck(script, n, |cs[0].bytes|, 0))
      || (exists n: nat :: JustEnough(script, n, |cs[0].bytes|) && Breaks(script[n..], cs[1..]))
  }

  predicate JustEnough(script: seq<Attempt>, n: nat, m: nat) {
    n > 0 && Enough(script, n, m, 0) && !Enough(script, n - 1, m, 0)
  }

  lemma JustEnoughIsUnique(script: seq<Attempt>, n: nat, n': nat, m: nat)
    requires JustEnough(script, n, m) && JustEnough(script, n', m)
    ensures n == n'
  {
    if n < n' {
      PrefixTakes(script, n' - 1, n', 0);
      TakenGrows(script, n, n' - 1, 0);
    }
    if n' < n {
      PrefixTakes(script, n - 1, n, 0);
      TakenGrows(script, n', n - 1, 0);
    }
  }

  /** A failed send has a cause: a session ends before the flag stops it exactly if some chunk breaks
      off. */
  lemma {:induction false} SessionEndsWhen(w: Wire, cs: seq<Capture>)
    requires forall c | c in cs :: ValidCapture(c)
    ensures !RecordAll(w, cs).1 <==> Breaks(w.script, cs)
    decreases cs
  {
    if cs != [] {
      assert cs[0] in cs;
      if cs[0].ReadFailed? {
        SessionEndsWhen(w, cs[1..]);
      } else {
        var m := |cs[0].bytes|;
        var n := SendFollowsAnswers(w, cs[0].bytes, 0);
        var (w', ok) := SendAll(w, cs[0].bytes, 0);
        if ok {
          SessionEndsWhen(w', cs[1..]);
          assert JustEnough(w.script, n, m);
          forall stuck
            ensures !Stuck(w.script, stuck, m, 0)
          {
            EnoughIsNotStuck(w.script, n, stuck, m, 0);
          }
          forall n': nat | JustEnough(w.script, n', m)
            ensures n' == n
          {
            JustEnoughIsUnique(w.script, n, n', m);
          }
        }
      }
    }
  }

  /** In every case what the peer has is a prefix of what was captured. */
  lemma SessionIsPrefix(w: Wire, cs: seq<Capture>)
    requires forall c | c in cs :: ValidCapture(c)
    ensures RecordAll(w, cs).0.delivered <= w.delivered + Captures(cs)
  {
    var i, k := SessionDelivers(w, cs);
    if !RecordAll(w, cs).1 {
      CapturesSplit(cs, i);
      assert Captures(cs[i..]) == cs[i].bytes + Captures(cs[i..][1..]);
      assert cs[i].bytes == cs[i].bytes[..k] + cs[i].bytes[k..];
    }
  }
}
