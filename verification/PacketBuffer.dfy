/** The double buffer of the MySQL driver over a connection. A connection is the list of answers its
    reads will get: bytes and the error that comes with the last of them.
 */
module PacketBuffer {

  newtype byte = x: int | 0 <= x < 256

  datatype Error = Nil | EOF | UnexpectedEOF | Broken | Busy

  datatype Answer = Answer(data: seq<byte>, error: Error)

  const DEFAULT_SIZE: nat := 4096
  const MAX_CACHED_SIZE: nat := 256 * 1024
  const MAX_PACKET_SIZE: nat := 0xff_ffff
  const MAX_UINT: nat := 0xffff_ffff_ffff_ffff

  // All bytes the answers carry.
  function Bytes(answers: seq<Answer>): seq<byte> {
    if answers == [] then [] else answers[0].data + Bytes(answers[1..])
  }

  predicate IsSuffix(s: seq<byte>, t: seq<byte>) {
    |s| <= |t| && s == t[|t| - |s|..]
  }

  // Some bytes are there and some still to come: together they are the unread and the incoming ones.
  predicate Received(unread: seq<byte>, incoming: seq<byte>, there: seq<byte>, coming: seq<byte>) {
    |unread| <= |there| && there + coming == unread + incoming
  }

  lemma ReceivedKeeps(unread: seq<byte>, incoming: seq<byte>, there: seq<byte>, coming: seq<byte>)
    requires Received(unread, incoming, there, coming)
    ensures there[..|unread|] == unread && IsSuffix(coming, incoming)
  {
    var all := there + coming;
    assert there[..|unread|] == all[..|unread|] == (unread + incoming)[..|unread|];
    assert coming == all[|there|..] == (unread + incoming)[|there|..] == incoming[|there| - |unread|..];
  }

  lemma Regroup(data: seq<byte>, chunk: seq<byte>, after: seq<byte>, before: seq<byte>)
    requires chunk + after == before
    ensures data + before == (data + chunk) + after
  {
  }

  function Sum(needs: seq<nat>): nat {
    if needs == [] then 0 else Sum(needs[..|needs| - 1]) + needs[|needs| - 1]
  }

  lemma SumNext(needs: seq<nat>, k: nat)
    requires k < |needs|
    ensures Sum(needs[..k + 1]) == Sum(needs[..k]) + needs[k]
  {
    assert needs[..k + 1][..k] == needs[..k];
  }

  class Conn {
    var answers: seq<Answer>
    ghost var faults: nat    // calls that reported an error

    constructor (answers: seq<Answer>)
      ensures this.answers == answers
    {
      this.answers, faults := answers, 0;
    }

    // Setting the deadline of the next read.
    method SetReadDeadline() returns (ok: bool)
      modifies this`faults
      ensures faults == old(faults) + if ok then 0 else 1
    {
      ok := *;
      if !ok {
        faults := faults + 1;
      }
    }

    // What fits of the next answer.
    method Take(room: nat) returns (data: seq<byte>, error: Error)
      requires room > 0
      modifies this
      ensures |data| <= room && data + Bytes(answers) == old(Bytes(answers))
      ensures error.Nil? ==> |answers| + |Bytes(answers)| < old(|answers| + |Bytes(answers)|)
      ensures faults == old(faults) + if error.Nil? then 0 else 1
    {
      if answers == [] {
        faults := faults + 1;
        return [], Broken;
      }
      var all, rest := answers[0].data, answers[1..];
      if room < |all| {
        answers := [answers[0].(data := all[room..])] + rest;
        assert answers[1..] == rest && all == all[..room] + all[room..];
        return all[..room], Nil;
      }
      error := answers[0].error;
      answers := rest;
      if !error.Nil? {
        faults := faults + 1;
      }
      data := all;
    }

    // Copies what fits of the next answer behind the first n bytes of the array.
    method Read(a: array<byte>, n: nat) returns (count: nat, error: Error)
      requires n < a.Length
      modifies this, a
      ensures n + count <= a.Length && a[..n + count] + Bytes(answers) == old(a[..n] + Bytes(answers))
      ensures error.Nil? ==> |answers| + |Bytes(answers)| < old(|answers| + |Bytes(answers)|)
      ensures faults == old(faults) + if error.Nil? then 0 else 1
    {
      var data;
      data, error := Take(a.Length - n);
      count := |data|;
      forall i | n <= i < n + count {
        a[i] := data[i - n];
      }
      assert a[..n + count] == old(a[..n]) + data;
    }
  }

  class Buffer {
    var buf: array<byte>
    const nc: Conn
    var idx: nat
    var length: nat
    var dbuf: seq<array<byte>>
    var flipcnt: nat
    ghost var filled: nat    // which of the two backing arrays the last fill aimed at

    ghost predicate Valid()
      reads this
    {
      && |dbuf| == 2 && dbuf[0] != dbuf[1] && idx + length <= buf.Length && flipcnt <= MAX_UINT
      && filled < 2
    }

    // The current array is not the one the next fill after one flip aims at. It holds after every fill.
    ghost predicate Apart()
      requires Valid()
      reads this
    {
      buf != dbuf[1 - filled]
    }

    // What has been received and not handed out.
    ghost function Window(): seq<byte>
      requires Valid()
      reads this, buf
    {
      buf[idx..idx + length]
    }

    // The rest of the byte stream as a reader sees it.
    ghost function Stream(): seq<byte>
      requires Valid()
      reads this, buf, nc
    {
      Window() + Bytes(nc.answers)
    }

    constructor (nc: Conn)
      ensures Valid() && Apart() && fresh(buf) && fresh(dbuf) && this.nc == nc && Stream() == Bytes(nc.answers)
    {
      var fg := new byte[DEFAULT_SIZE](_ => 0);
      var none := new byte[0];
      buf, this.nc, idx, length, dbuf, flipcnt, filled := fg, nc, 0, 0, [fg, none], 0, 0;
    }

    method Flip()
      requires Valid()
      modifies this`flipcnt
      ensures Valid() && flipcnt % 2 != old(flipcnt) % 2 && Stream() == old(Stream())
      ensures old(Apart()) ==> Apart()
    {
      flipcnt := if flipcnt == MAX_UINT then 0 else flipcnt + 1;
    }

    // The backing array to fill, or a bigger one in its place.
    method Grow(need: nat) returns (dest: array<byte>)
      requires Valid()
      modifies this`dbuf
      ensures need <= dest.Length && (dest == old(dbuf)[flipcnt % 2] || fresh(dest))
      ensures dbuf == old(dbuf) || (fresh(dest) && dbuf == old(dbuf)[flipcnt % 2 := dest])
      ensures need <= old(dbuf)[flipcnt % 2].Length ==> dest == old(dbuf)[flipcnt % 2] && dbuf == old(dbuf)
      // A new array is the next multiple of the default size, and is cached unless it is too large.
      ensures need > old(dbuf)[flipcnt % 2].Length ==>
        && fresh(dest) && dest.Length % DEFAULT_SIZE == 0 && need < dest.Length <= need + DEFAULT_SIZE
        && dbuf[flipcnt % 2] == if dest.Length <= MAX_CACHED_SIZE then dest else old(dbuf)[flipcnt % 2]
    {
      var side := flipcnt % 2;
      dest := dbuf[side];
      if need > dest.Length {
        dest := new byte[(need / DEFAULT_SIZE + 1) * DEFAULT_SIZE](_ => 0);
        if dest.Length <= MAX_CACHED_SIZE {
          dbuf := dbuf[side := dest];
        }
      }
    }

    // Makes that the current array, with the unread bytes moved to its start.
    method Move(need: nat)
      requires Valid() && length < need
      modifies this, dbuf[flipcnt % 2]
      ensures Valid() && Apart() && unchanged(this`length, this`flipcnt) && filled == flipcnt % 2
      ensures idx == 0 && need <= buf.Length && buf[..length] == old(Window())
      ensures buf == old(dbuf)[flipcnt % 2] || fresh(buf)
      ensures dbuf == old(dbuf) || (fresh(buf) && dbuf == old(dbuf)[flipcnt % 2 := buf])
    {
      var n := length;
      var dest := Grow(need);
      if n > 0 {
        forall i | 0 <= i < n {
          dest[i] := buf[idx + i];
        }
      }
      buf, idx, filled := dest, 0, flipcnt % 2;
    }

    // Reads behind the unread bytes until need are there.
    method Receive(need: nat, ghost unread: seq<byte>, ghost incoming: seq<byte>) returns (error: Error)
      requires idx == 0 && length < need <= buf.Length && buf[..length] == unread && Bytes(nc.answers) == incoming
      modifies this`length, nc, buf
      ensures length <= buf.Length
      ensures error.Nil? ==> length >= need && buf[..length] + Bytes(nc.answers) == unread + incoming
      ensures !error.Nil? ==> buf[..length] == unread && IsSuffix(Bytes(nc.answers), incoming)
      ensures nc.faults >= old(nc.faults) && (!error.Nil? ==> nc.faults > old(nc.faults))
    {
      var n := length;
      while true
        invariant length == old(length) == |unread| <= n < need <= buf.Length && nc.faults == old(nc.faults)
        invariant Received(unread, incoming, buf[..n], Bytes(nc.answers))
        decreases |nc.answers| + |Bytes(nc.answers)|
      {
        var set_ := nc.SetReadDeadline();
        if !set_ {
          error := Broken;
          break;
        }
        var nn;
        nn, error := nc.Read(buf, n);
        n := n + nn;
        if (error.Nil? || error.EOF?) && n >= need {
          length := n;
          return Nil;
        }
        if !error.Nil? {
          error := if error.EOF? then UnexpectedEOF else error;
          break;
        }
      }
      assert nc.faults > old(nc.faults);
      ReceivedKeeps(unread, incoming, buf[..n], Bytes(nc.answers));
      assert buf[..length] == buf[..n][..length];
    }

    // On success the stream is the same and long enough; on an error what was unread still is, and the
    // bytes this call received are gone. Of the two backing arrays only the one aimed at may be written.
    method Fill(need: nat) returns (error: Error)
      requires Valid() && length < need
      modifies this, nc, dbuf[flipcnt % 2]
      ensures Valid() && Apart() && flipcnt == old(flipcnt) && filled == flipcnt % 2
      ensures buf == old(dbuf)[flipcnt % 2] || fresh(buf)
      ensures dbuf == old(dbuf) || (fresh(buf) && dbuf == old(dbuf)[flipcnt % 2 := buf])
      ensures error.Nil? ==> length >= need && Stream() == old(Stream())
      ensures !error.Nil? ==> Window() == old(Window()) && IsSuffix(Bytes(nc.answers), old(Bytes(nc.answers)))
      ensures nc.faults >= old(nc.faults) && (!error.Nil? ==> nc.faults > old(nc.faults))
    {
      ghost var unread, incoming := Window(), Bytes(nc.answers);
      Move(need);
      error := Receive(need, unread, incoming);
      assert Window() == buf[..length];
    }

    // Hands out unread bytes as a view into the current array.
    method Hand(need: nat) returns (offset: nat)
      requires Valid() && need <= length
      modifies this`idx, this`length
      ensures Valid() && offset + need == idx && (old(Apart()) ==> Apart())
      ensures buf[offset..idx] == old(Stream())[..need] && Stream() == old(Stream())[need..]
    {
      offset := idx;
      idx := idx + need;
      length := length - need;
      assert old(Window()) == buf[offset..idx] + Window();
    }

    // The next bytes of the stream, as a view into the current array.
    method ReadNext(need: nat) returns (error: Error, view: array<byte>, offset: nat)
      requires Valid()
      modifies this, nc, dbuf[flipcnt % 2]
      ensures Valid() && flipcnt == old(flipcnt) && (old(Apart()) ==> Apart())
      ensures dbuf == old(dbuf) || (fresh(buf) && dbuf == old(dbuf)[flipcnt % 2 := buf])
      ensures buf == old(buf) || buf == old(dbuf)[flipcnt % 2] || fresh(buf)
      ensures error.Nil? ==> need <= |old(Stream())| && Stream() == old(Stream())[need..]
      ensures error.Nil? ==> view == buf && offset + need == idx && view[offset..idx] == old(Stream())[..need]
      ensures !error.Nil? ==> Window() == old(Window()) && IsSuffix(Bytes(nc.answers), old(Bytes(nc.answers)))
      ensures nc.faults >= old(nc.faults) && (!error.Nil? ==> old(length) < need && nc.faults > old(nc.faults))
      ensures old(length) >= need ==> buf == old(buf) && nc.answers == old(nc.answers)
      ensures old(Apart()) && old(filled) != old(flipcnt) % 2 ==> old(buf)[..] == old(buf[..])
    {
      error, view, offset := Nil, buf, idx;
      if length < need {
        error := Fill(need);
        if !error.Nil? {
          return;
        }
      }
      view := buf;
      offset := Hand(need);
    }

    method Step(need: nat) returns (ok: bool, data: seq<byte>)
      requires Valid()
      modifies this, nc, dbuf[0], dbuf[1]
      ensures Valid() && (ok ==> |data| == need && data + Stream() == old(Stream()))
      ensures nc.faults >= old(nc.faults) && (!ok ==> nc.faults > old(nc.faults))
      ensures dbuf[0] == old(dbuf[0]) || fresh(dbuf[0])
      ensures dbuf[1] == old(dbuf[1]) || fresh(dbuf[1])
    {
      ghost var stream := Stream();
      var error, view, offset := ReadNext(need);
      if !error.Nil? {
        return false, [];
      }
      assert stream == stream[..need] + stream[need..];
      return true, view[offset..offset + need];
    }

    method FlipAndStep(need: nat, flip: bool) returns (ok: bool, data: seq<byte>)
      requires Valid()
      modifies this, nc, dbuf[0], dbuf[1]
      ensures Valid() && (ok ==> |data| == need && data + Stream() == old(Stream()))
      ensures nc.faults >= old(nc.faults) && (!ok ==> nc.faults > old(nc.faults))
      ensures dbuf[0] == old(dbuf[0]) || fresh(dbuf[0])
      ensures dbuf[1] == old(dbuf[1]) || fresh(dbuf[1])
    {
      if flip {
        Flip();
      }
      ok, data := Step(need);
    }

    // Any sequence of reads, with flips anywhere between them: what the successful ones return, one after
    // the other, is the stream so far.
    method ReadRun(needs: seq<nat>, flips: set<nat>) returns (ok: bool, data: seq<byte>)
      requires Valid()
      modifies this, nc, dbuf[0], dbuf[1]
      ensures Valid() && data <= old(Stream())
      ensures if ok then |data| == Sum(needs) && data + Stream() == old(Stream()) else nc.faults > old(nc.faults)
    {
      ok, data := true, [];
      ghost var stream, rest := Stream(), Stream();
      for k := 0 to |needs|
        invariant Valid() && Stream() == rest && data + rest == stream && |data| == Sum(needs[..k]) && ok
        invariant nc.faults >= old(nc.faults)
        invariant dbuf[0] == old(dbuf[0]) || fresh(dbuf[0])
        invariant dbuf[1] == old(dbuf[1]) || fresh(dbuf[1])
      {
        var chunk;
        ok, chunk := FlipAndStep(needs[k], k in flips);
        if !ok {
          return;
        }
        Regroup(data, chunk, Stream(), rest);
        SumNext(needs, k);
        data, rest := data + chunk, Stream();
      }
      assert needs[..|needs|] == needs;
    }

    // A buffer to write into; refused while bytes are unread.
    method TakeBuffer(size: nat) returns (error: Error, a: array<byte>)
      requires Valid()
      modifies this
      ensures Valid() && unchanged(this`length, this`flipcnt, this`dbuf, this`filled)
      ensures error == if old(length) > 0 then Busy else Nil
      ensures error.Nil? ==> size <= a.Length
      ensures old(length) > 0 ==> unchanged(this)
      ensures error.Nil? && size <= old(buf).Length ==> a == old(buf) && unchanged(this)
      ensures error.Nil? && size > old(buf).Length ==>
        fresh(a) && a.Length == size && buf == if size < MAX_PACKET_SIZE then a else old(buf)
      ensures Stream() == old(Stream())
      ensures old(Apart()) ==> Apart() && a != dbuf[1 - filled]
    {
      if length > 0 {
        return Busy, buf;
      }
      if size <= buf.Length {
        return Nil, buf;
      }
      a := new byte[size](_ => 0);
      error := Nil;
      if size < MAX_PACKET_SIZE {
        buf := a;
      }
    }

    // Takes over a larger buffer; one that was handed out or made since keeps the arrays apart.
    method Store(a: array<byte>) returns (error: Error)
      requires Valid()
      modifies this
      ensures Valid() && unchanged(this`length, this`flipcnt, this`dbuf, this`filled)
      ensures error == if old(length) > 0 then Busy else Nil
      ensures buf == if old(length) == 0 && old(buf).Length < a.Length <= MAX_PACKET_SIZE then a else old(buf)
      ensures Stream() == old(Stream())
      ensures old(Apart()) && a != dbuf[1 - filled] ==> Apart()
    {
      if length > 0 {
        return Busy;
      }
      if a.Length <= MAX_PACKET_SIZE && a.Length > buf.Length {
        buf := a;
      }
      return Nil;
    }
  }
}
