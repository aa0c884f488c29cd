/**
  Messages with descriptors (osbuild/util/jsoncomm.py:36-113, 344-478): a JSON text
  goes inline, or through a memory file when it is too long for the socket.

  A socket keeps packets whole and in order.  A descriptor is named by the open file
  it stands for.  `loads` is `json.loads`; all that is asked of it is that it reads
  what `json.dumps` prints.
 */
module JsonComm {
  import opened Wrappers
  import opened Decimal
  import opened JsonText

  const MARKER := "<args-via-fd>"
  const MAX_FDS := 253

  function Dumps(j: Json): string { Put(j, "") }

  ghost predicate Reads(loads: string -> Option<Json>) { forall j :: loads(Dumps(j)) == Some(j) }

  // Section 2 of RFC 8259: white space, then a value; section 3: how values begin.
  predicate IsBlank(c: char) { c == ' ' || c == '\t' || c == '\n' || c == '\r' }

  predicate OpensValue(c: char) {
    c == 'f' || c == 'n' || c == 't' || c == '{' || c == '[' || c == '"' || c == '-' || IsDigit(c)
  }

  predicate OpensText(t: string) { t != "" && if IsBlank(t[0]) then OpensText(t[1..]) else OpensValue(t[0]) }

  /** The marker is no JSON text, nor what is printed for any payload. */
  lemma MarkerIsNoJson(j: Json)
    ensures Dumps(j) != MARKER && !OpensText(MARKER)
    ensures Dumps(j) != "" && (OpensText(Dumps(j)) || Dumps(j)[0] == 'N' || Dumps(j)[0] == 'I')
  {
    assert Kind(j, Dumps(j)[0]);
    assert MARKER[0] == '<';
  }

  // `fds` descriptors travel with `data`.
  datatype Packet = Packet(data: string, fds: seq<int>)

  // The descriptors received with a message.  `received` and `stolen` are records.
  class FdSet {
    var fds: seq<int>
    ghost var received: multiset<int>
    ghost var stolen: multiset<int>
    ghost var closed: multiset<int>

    constructor (rawfds: seq<int>)
      requires forall i :: 0 <= i < |rawfds| ==> rawfds[i] >= 0
      ensures Valid() && fds == rawfds && received == multiset(rawfds) && stolen == multiset{} && closed == multiset{}
    {
      fds := rawfds;
      received, stolen, closed := multiset(rawfds), multiset{}, multiset{};
      new;
      OpenAll(fds);
    }

    // Every descriptor is in the set, or was stolen, or closed -- one of the three.
    ghost predicate Valid()
      reads this
    {
      received == Open(fds) + stolen + closed
    }

    // `fds[key]`; negative keys count from the end.
    function At(key: int): (r: Option<nat>)
      reads this
      ensures r.Some? ==> r.value < |fds| && fds[r.value] >= 0
    {
      var k := if key < 0 then key + |fds| else key;
      if 0 <= k < |fds| && fds[k] >= 0 then Some(k) else None
    }

    method Steal(key: int) returns (r: Option<int>)
      requires Valid()
      modifies this
      ensures Valid() && received == old(received) && closed == old(closed)
      ensures r.None? <==> old(At(key)).None?
      ensures r.None? ==> fds == old(fds) && stolen == old(stolen)
      ensures r.Some? ==>
        var k := old(At(key)).value;
        r.value == old(fds)[k] && fds == old(fds)[k := -1] && stolen == old(stolen) + multiset{r.value}
    {
      var k := At(key);
      if k.None? {
        return None;
      }
      var v := fds[k.value];
      OpenUpdate(fds, k.value);
      fds := fds[k.value := -1];
      stolen := stolen + multiset{v};
      r := Some(v);
    }

    // Closing again finds nothing left to close.
    method Close(log: Log)
      requires Valid()
      modifies this, log
      ensures Valid() && fds == [] && received == old(received) && stolen == old(stolen)
      ensures log.closes == old(log.closes) + Remaining(old(fds))
      ensures closed == old(closed) + multiset(Remaining(old(fds)))
    {
      ghost var done: seq<int> := [];
      var i := 0;
      while i < |fds|
        invariant 0 <= i <= |fds| && fds == old(fds)
        invariant received == old(received) && stolen == old(stolen) && closed == old(closed)
        invariant log.closes == old(log.closes) + done && done == Remaining(fds[..i])
      {
        RemainingGrows(fds, i);
        if fds[i] >= 0 {
          log.closes := log.closes + [fds[i]];
          done := done + [fds[i]];
        }
        i := i + 1;
      }
      assert fds[..i] == fds;
      closed := closed + multiset(done);
      fds := [];
    }
  }

  // The close calls of a process.
  class Log {
    var closes: seq<int>

    constructor ()
      ensures closes == []
    {
      closes := [];
    }
  }

  // What is left of a set: stolen places hold -1.
  function Remaining(fds: seq<int>): seq<int> {
    if fds == [] then [] else (if fds[0] >= 0 then [fds[0]] else []) + Remaining(fds[1..])
  }

  ghost function Open(fds: seq<int>): multiset<int> { multiset(Remaining(fds)) }

  lemma {:induction false} RemainingGrows(fds: seq<int>, i: nat)
    requires i < |fds|
    ensures Remaining(fds[..i + 1]) == Remaining(fds[..i]) + (if fds[i] >= 0 then [fds[i]] else [])
  {
    if i > 0 {
      assert fds[..i + 1][1..] == fds[1..][..i] && fds[..i][1..] == fds[1..][..i - 1];
      RemainingGrows(fds[1..], i - 1);
    } else {
      assert fds[..1][1..] == [];
    }
  }

  lemma {:induction false} OpenAll(fds: seq<int>)
    requires forall i :: 0 <= i < |fds| ==> fds[i] >= 0
    ensures Remaining(fds) == fds
  {
    if fds != [] {
      OpenAll(fds[1..]);
    }
  }

  lemma {:induction false} OpenUpdate(fds: seq<int>, k: nat)
    requires k < |fds| && fds[k] >= 0
    ensures Open(fds) == Open(fds[k := -1]) + multiset{fds[k]}
  {
    if k == 0 {
      assert fds[0 := -1][1..] == fds[1..];
    } else {
      assert fds[k := -1][1..] == fds[1..][k - 1 := -1];
      OpenUpdate(fds[1..], k - 1);
    }
  }

  /** Once a set has been closed, each received descriptor has been closed once or was
      stolen, and closing again closes nothing. */
  method CloseTwice(set_: FdSet, log: Log)
    requires set_.Valid()
    modifies set_, log
    ensures set_.received == set_.closed + set_.stolen
    ensures log.closes == old(log.closes) + Remaining(old(set_.fds))
  {
    set_.Close(log);
    set_.Close(log);
    assert Remaining([]) == [];
  }

  // `recvmsg` with a buffer of `size`.
  function Cut(data: string, size: nat): string { if size < |data| then data[..size] else data }

  // What a packet carries, given the contents of memory files.
  function Carried(files: map<int, string>, p: Packet): Option<(string, seq<int>)> {
    if p.data == MARKER then
      if p.fds == [] || p.fds[0] !in files then None else Some((files[p.fds[0]], p.fds[1..]))
    else Some((p.data, p.fds))
  }

  // The kernel takes the descriptors, and that of a memory file if the text is too long.
  predicate Sendable(wmemMax: nat, payload: Json, fds: seq<int>) {
    |fds| + (if |Dumps(payload)| > wmemMax then 1 else 0) <= MAX_FDS
  }

  // One direction of a connection.  `pending` records what was sent.
  class Socket {
    const wmemMax: nat
    const loads: string -> Option<Json>
    var queue: seq<Packet>
    var files: map<int, string>
    ghost var pending: seq<(Json, seq<int>)>

    constructor (wmemMax: nat, loads: string -> Option<Json>)
      requires Reads(loads)
      ensures this.wmemMax == wmemMax && this.loads == loads && Valid() && pending == []
    {
      this.wmemMax, this.loads := wmemMax, loads;
      queue, files, pending := [], map[], [];
    }

    ghost predicate Valid()
      reads this
    {
      && Reads(loads) && |queue| == |pending|
      && forall i :: 0 <= i < |queue| ==> Sent(files, queue[i], pending[i].0, pending[i].1)
    }

    // `fd` names a new memory file, closed here once the packet is on its way.
    method Send(payload: Json, fds: seq<int>, fd: int) returns (ok: bool)
      requires Valid() && fd >= 0 && fd !in files && forall i :: 0 <= i < |fds| ==> fds[i] >= 0
      modifies this
      ensures Valid()
      ensures ok <==> Sendable(wmemMax, payload, fds)
      ensures pending == old(pending) + (if ok then [(payload, fds)] else [])
      ensures !ok ==> queue == old(queue) && files == old(files)
      ensures ok && |Dumps(payload)| <= wmemMax ==>
        queue == old(queue) + [Packet(Dumps(payload), fds)] && files == old(files)
      ensures ok && |Dumps(payload)| > wmemMax ==>
        queue == old(queue) + [Packet(MARKER, [fd] + fds)] && files == old(files)[fd := Dumps(payload)]
    {
      var serialized := Dumps(payload);
      MarkerIsNoJson(payload);
      if |serialized| > wmemMax {
        if 1 + |fds| > MAX_FDS {
          return false;
        }
        SentStays(files, fd, serialized, queue, pending);
        files := files[fd := serialized];
        queue := queue + [Packet(MARKER, [fd] + fds)];
      } else {
        if |fds| > MAX_FDS {
          return false;
        }
        queue := queue + [Packet(serialized, fds)];
      }
      pending := pending + [(payload, fds)];
      ok := true;
    }

    // A buffer large enough for the next packet, found by doubling.
    method PeekSize() returns (size: nat)
      requires queue != []
      ensures size >= |queue[0].data| && size >= 4096
      ensures size == 4096 || size < 2 * |queue[0].data|
    {
      size := 4096;
      while |queue[0].data| > size
        invariant size >= 4096 && (size == 4096 || size < 2 * |queue[0].data|)
        decreases |queue[0].data| - size
      {
        size := size * 2;
      }
    }

    /** The next message is the oldest one sent, with its descriptors, whichever way
        it travelled; a memory file is closed once. */
    method Recv(log: Log) returns (payload: Json, fdset: FdSet)
      requires Valid() && queue != []
      modifies this, log
      ensures Valid() && pending == old(pending)[1..]
      ensures payload == old(pending)[0].0
      ensures fresh(fdset) && fdset.Valid() && fdset.fds == old(pending)[0].1
      ensures fdset.received == multiset(old(pending)[0].1)
      ensures log.closes == old(log.closes) + (if old(queue)[0].data == MARKER then [old(queue)[0].fds[0]] else [])
    {
      assert Sent(files, queue[0], pending[0].0, pending[0].1);
      var size := PeekSize();
      var msg := Packet(Cut(queue[0].data, size), queue[0].fds);
      queue := queue[1..];
      pending := pending[1..];
      var serialized;
      if msg.data == MARKER {
        fdset := new FdSet(msg.fds[1..]);
        serialized := files[msg.fds[0]];
        log.closes := log.closes + [msg.fds[0]];
      } else {
        fdset := new FdSet(msg.fds);
        serialized := msg.data;
      }
      payload := loads(serialized).value;
    }
  }

  // `p` carries this message.
  ghost predicate Sent(files: map<int, string>, p: Packet, payload: Json, fds: seq<int>) {
    && Carried(files, p) == Some((Dumps(payload), fds))
    && forall i :: 0 <= i < |fds| ==> fds[i] >= 0
  }

  // A new memory file changes nothing about packets already sent.
  lemma SentStays(files: map<int, string>, fd: int, text: string, queue: seq<Packet>, pending: seq<(Json, seq<int>)>)
    requires fd !in files && |queue| == |pending|
    requires forall i :: 0 <= i < |queue| ==> Sent(files, queue[i], pending[i].0, pending[i].1)
    ensures forall i :: 0 <= i < |queue| ==> Sent(files[fd := text], queue[i], pending[i].0, pending[i].1)
  {
  }
}
