/** Buffered reading (the Rio package of csapp.c) over a descriptor that may
    deliver short counts, be interrupted, fail, or reach end of file. */
module Rio {
  import opened Digits
  import opened Text

  const RIO_BUFSIZE := 8192

  /** What the operating system does with one `read`: deliver at most `limit`
      bytes (at least one, if there are any), be interrupted, or fail. */
  datatype Turn = Chunk(limit: nat) | Interrupt | Failure

  function Min(a: int, b: int): int {
    if a < b then a else b
  }

  /** Bytes delivered by a `read` of `n` when `left` bytes remain. */
  function Delivered(turn: Turn, n: nat, left: nat): nat {
    match turn
    case Chunk(limit) => Min(Min(if limit == 0 then 1 else limit, n), left)
    case _ => 0
  }

  /** An open file: the bytes still to come, and the schedule of future reads.
      When the schedule is used up, reads deliver all they can. */
  class Descriptor {
    var stream: string
    var turns: seq<Turn>

    constructor (stream: string, turns: seq<Turn>)
      ensures this.stream == stream && this.turns == turns
    {
      this.stream, this.turns := stream, turns;
    }

    method Read(buf: array<char>, n: nat) returns (r: int, interrupted: bool)
      requires 0 < n <= buf.Length
      modifies this, buf
      ensures turns == if old(turns) == [] then [] else old(turns)[1..]
      ensures -1 <= r <= n
      ensures r < 0 ==> stream == old(stream) && old(turns) != []
      ensures r < 0 ==> old(turns)[0] == if interrupted then Interrupt else Failure
      ensures r >= 0 ==> r <= |old(stream)| && buf[..r] == old(stream)[..r] && stream == old(stream)[r..]
      ensures r == 0 ==> old(stream) == ""
    {
      var turn := if turns == [] then Chunk(n) else turns[0];
      turns := if turns == [] then [] else turns[1..];
      interrupted := turn == Interrupt;
      if !turn.Chunk? {
        return -1, interrupted;
      }
      r := Delivered(turn, n, |stream|);
      forall k | 0 <= k < r {
        buf[k] := stream[k];
      }
      stream := stream[r..];
    }
  }

  class Reader {
    const fd: Descriptor
    const buf: array<char>
    var cnt: int
    var ptr: nat

    ghost predicate Valid()
      reads this, buf, fd
    {
      && buf.Length == RIO_BUFSIZE
      && -1 <= cnt
      && (cnt > 0 ==> ptr + cnt <= RIO_BUFSIZE)
    }

    ghost function Unread(): string
      requires Valid()
      reads this, buf, fd
    {
      if cnt > 0 then buf[ptr..ptr + cnt] else ""
    }

    /** Everything the caller has not been given yet. */
    ghost function Pending(): string
      requires Valid()
      reads this, buf, fd
    {
      Unread() + fd.stream
    }

    /** No read will fail outright. */
    ghost predicate Healthy()
      reads fd
    {
      Failure !in fd.turns
    }

    constructor (fd: Descriptor)
      ensures Valid() && this.fd == fd && fresh(buf) && Pending() == fd.stream
    {
      this.fd := fd;
      buf := new char[RIO_BUFSIZE];
      cnt, ptr := 0, 0;
    }

    /** One round of the refill loop, on an empty buffer. */
    method RefillOnce() returns (interrupted: bool)
      requires Valid() && cnt <= 0
      modifies this, buf, fd
      ensures Valid() && Pending() == old(Pending())
      ensures fd.turns == if old(fd.turns) == [] then [] else old(fd.turns)[1..]
      ensures cnt == 0 ==> Pending() == ""
      ensures cnt < 0 ==> old(fd.turns) != [] && old(fd.turns)[0] == if interrupted then Interrupt else Failure
    {
      ghost var before := fd.stream;
      assert Pending() == before;
      cnt, interrupted := fd.Read(buf, RIO_BUFSIZE);
      if cnt > 0 {
        ptr := 0;
        assert Unread() == before[..cnt];
      }
    }

    /** The refill loop of `rio_read`. */
    method Refill() returns (r: int)
      requires Valid()
      modifies this, buf, fd
      ensures Valid() && Pending() == old(Pending())
      ensures -1 <= r <= 1
      ensures r == 1 <==> cnt > 0
      ensures r == 0 ==> Pending() == ""
      ensures old(Healthy()) ==> r >= 0 && Healthy()
    {
      while cnt <= 0
        invariant Valid() && Pending() == old(Pending())
        invariant old(Healthy()) ==> Healthy()
        decreases |fd.turns|, cnt <= 0
      {
        var interrupted := RefillOnce();
        if cnt < 0 {
          if !interrupted {
            return -1;
          }
        } else if cnt == 0 {
          return 0;
        }
      }
      return 1;
    }

    /** `rio_read`: at most `n` bytes into `usr` from `off` on, in stream order. */
    method Read(usr: array<char>, off: nat, n: nat) returns (r: int)
      requires Valid() && usr != buf
      requires 0 < n <= INT_MAX && off + n <= usr.Length
      modifies this, buf, fd, usr
      ensures Valid()
      ensures -1 <= r <= n
      ensures r < 0 ==> Pending() == old(Pending()) && usr[..] == old(usr[..])
      ensures r >= 0 ==> usr[..] == old(usr[..off]) + usr[off..off + r] + old(usr[off + r..])
      ensures r >= 0 ==> usr[off..off + r] + Pending() == old(Pending())
      ensures r == 0 ==> old(Pending()) == ""
      ensures old(Healthy()) ==> r >= 0 && Healthy()
    {
      r := Refill();
      if r < 1 {
        return;
      }
      var count := n;
      if cnt < n {
        count := cnt;
      }
      CopyOut(usr, off, count);
      r := count;
    }

    /** The copying half of `rio_read`: hands out `count` buffered bytes. */
    method CopyOut(usr: array<char>, off: nat, count: nat)
      requires Valid() && usr != buf
      requires 0 < count <= cnt && off + count <= usr.Length
      modifies this, usr
      ensures Valid()
      ensures usr[..] == old(usr[..off]) + usr[off..off + count] + old(usr[off + count..])
      ensures usr[off..off + count] + Pending() == old(Pending())
    {
      ghost var unread, whole := Unread(), usr[..];
      forall k | 0 <= k < count {
        usr[off + k] := buf[ptr + k];
      }
      assert usr[off..off + count] == unread[..count];
      ptr := ptr + count;
      cnt := cnt - count;
      assert Unread() == unread[count..];
      assert usr[..off] == whole[..off] && usr[off + count..] == whole[off + count..];
      assert unread == unread[..count] + unread[count..];
    }

    /** One `rio_read` call of the two loops below: `at` bytes are in place already,
        and together with what is pending they make up `all`. */
    method Extend(usr: array<char>, at: nat, n: nat, ghost all: string) returns (r: int)
      requires Valid() && usr != buf
      requires 0 < n <= INT_MAX && at + n <= usr.Length
      requires usr[..at] + Pending() == all
      modifies this, buf, fd, usr
      ensures Valid()
      ensures -1 <= r <= n
      ensures usr[..at] == old(usr[..at])
      ensures usr[..if r < 0 then at else at + r] + Pending() == all
      ensures r == 0 ==> Pending() == ""
      ensures old(Healthy()) ==> r >= 0 && Healthy()
    {
      ghost var front, pending := usr[..at], Pending();
      r := Read(usr, at, n);
      assert usr[..at] == front;
      if r >= 0 {
        assert usr[..at + r] == front + usr[at..at + r];
        JoinChunks(front, usr[at..at + r], Pending(), pending, all);
      }
    }

    /** `rio_readnb`: exactly the next `n` bytes, fewer only at end of file. A
        failing read loses nothing: `got` bytes were handed over, the rest is pending. */
    method ReadBytes(usr: array<char>, n: nat) returns (r: int, ghost got: nat)
      requires Valid() && usr != buf
      requires n <= INT_MAX && n <= usr.Length
      modifies this, buf, fd, usr
      ensures Valid()
      ensures got <= n && usr[..got] + Pending() == old(Pending())
      ensures r >= 0 ==> r == got == Min(n, |old(Pending())|)
      ensures old(Healthy()) ==> r >= 0 && Healthy()
    {
      var left := n;
      got := 0;
      while left > 0
        invariant Valid() && 0 <= left <= n && got == n - left
        invariant usr[..got] + Pending() == old(Pending())
        invariant old(Healthy()) ==> Healthy()
      {
        var read := Extend(usr, n - left, left, old(Pending()));
        if read < 0 {
          return -1, got;
        }
        if read == 0 {
          break;
        }
        left := left - read;
        got := got + read;
      }
      return n - left, got;
    }

    /** The next byte, placed after the `line` read so far. */
    method ReadByte(usr: array<char>, at: nat, ghost line: string, ghost all: string) returns (rc: int)
      requires Valid() && usr != buf && at < usr.Length
      requires usr[..at] == line && line + Pending() == all
      modifies this, buf, fd, usr
      ensures Valid() && -1 <= rc <= 1
      ensures rc < 1 ==> usr[..at] == line && line + Pending() == all
      ensures rc == 1 ==> usr[..at + 1] == line + [usr[at]] && (line + [usr[at]]) + Pending() == all
      ensures rc == 0 ==> Pending() == ""
      ensures old(Healthy()) ==> rc >= 0 && Healthy()
    {
      rc := Extend(usr, at, 1, all);
      if rc == 1 {
        assert usr[..at + 1] == usr[..at] + [usr[at]];
      }
    }

    /** The loop of `rio_readlineb`: `n` bytes of a line are in place unless `rc` < 0. */
    method ScanLine(usr: array<char>, maxlen: nat) returns (rc: int, n: nat)
      requires Valid() && usr != buf
      requires 1 <= maxlen <= INT_MAX && maxlen <= usr.Length
      modifies this, buf, fd, usr
      ensures Valid() && n < maxlen
      ensures usr[..n] + Pending() == old(Pending())
      ensures rc >= 0 ==> IsCut(usr[..n], Pending(), maxlen)
      ensures old(Healthy()) ==> rc >= 0 && Healthy()
    {
      ghost var line := "";
      n := 0;
      while n + 1 < maxlen
        invariant Valid() && n < maxlen && usr[..n] == line && '\n' !in line
        invariant line + Pending() == old(Pending())
        invariant old(Healthy()) ==> Healthy()
      {
        rc := ReadByte(usr, n, line, old(Pending()));
        if rc < 1 {
          return;
        }
        line := line + [usr[n]];
        n := n + 1;
        if usr[n - 1] == '\n' {
          return;
        }
      }
      rc := 1;
    }

    /** `rio_readlineb`: the stream up to and including the next newline, cut at
        `maxlen` - 1 bytes, NUL-terminated. */
    method ReadLine(usr: array<char>, maxlen: nat) returns (r: int, ghost got: nat)
      requires Valid() && usr != buf
      requires 1 <= maxlen <= INT_MAX && maxlen <= usr.Length
      modifies this, buf, fd, usr
      ensures Valid()
      ensures got < maxlen && usr[..got] + Pending() == old(Pending())
      ensures r >= 0 ==> r == got && usr[..got] == Cut(old(Pending()), maxlen)
      ensures r > 0 ==> usr[r] == '\0'
      ensures old(Healthy()) ==> r >= 0 && Healthy()
    {
      var rc, n := ScanLine(usr, maxlen);
      got := n;
      if rc < 0 {
        return -1, got;
      }
      ghost var line, rest := usr[..n], Pending();
      CutIsUnique(line, rest, maxlen);
      if rc == 0 && n == 0 {
        return 0, got;
      }
      usr[n] := '\0';
      assert usr[..n] == line && Pending() == rest;
      return n, got;
    }

    /** Reading line by line until nothing comes, as the session loop does. */
    method ReadAllLines(usr: array<char>, maxlen: nat) returns (lines: seq<string>)
      requires Valid() && usr != buf && Healthy()
      requires 2 <= maxlen <= INT_MAX && maxlen <= usr.Length
      modifies this, buf, fd, usr
      ensures Valid()
      ensures lines == LinesOf(old(Pending()), maxlen)
      ensures Pending() == ""
    {
      lines := [];
      while true
        invariant Valid() && Healthy()
        invariant lines + LinesOf(Pending(), maxlen) == LinesOf(old(Pending()), maxlen)
        decreases |Pending()|
      {
        ghost var pending := Pending();
        var n, got := ReadLine(usr, maxlen);
        NextLine(lines, pending, Pending(), maxlen);
        if n <= 0 {
          break;
        }
        lines := lines + [usr[..n]];
      }
    }
  }

  lemma JoinChunks(front: string, chunk: string, rest: string, pending: string, all: string)
    requires front + pending == all && chunk + rest == pending
    ensures (front + chunk) + rest == all
  {
  }

  /** How much of the stream one `rio_readlineb` takes. */
  function CutLength(stream: string, maxlen: nat): (n: nat)
    requires maxlen >= 1
    ensures n <= |stream|
  {
    var n := LineLength(stream);
    Min(maxlen - 1, if n < |stream| then n + 1 else n)
  }

  function Cut(stream: string, maxlen: nat): string
    requires maxlen >= 1
  {
    stream[..CutLength(stream, maxlen)]
  }

  /** `line` ends where a line must end, with `rest` to follow. */
  ghost predicate IsCut(line: string, rest: string, maxlen: nat) {
    && |line| < maxlen
    && (forall k | 0 <= k < |line| - 1 :: line[k] != '\n')
    && (|line| == maxlen - 1 || rest == "" || (line != "" && line[|line| - 1] == '\n'))
  }

  lemma CutIsUnique(line: string, rest: string, maxlen: nat)
    requires IsCut(line, rest, maxlen)
    ensures line == Cut(line + rest, maxlen)
  {
    var s := line + rest;
    assert forall k | 0 <= k < |line| :: s[k] == line[k];
    assert LineLength(s) >= |line| - 1;
    assert s[..|line|] == line;
  }

  /** The stream cut after each newline and after every `maxlen` - 1 bytes
      without one: what successive `rio_readlineb` calls return. */
  function LinesOf(stream: string, maxlen: nat): (lines: seq<string>)
    requires maxlen >= 2
    decreases |stream|
  {
    if stream == "" then []
    else [Cut(stream, maxlen)] + LinesOf(stream[CutLength(stream, maxlen)..], maxlen)
  }

  lemma {:induction false} NextLine(lines: seq<string>, pending: string, rest: string, maxlen: nat)
    requires maxlen >= 2
    requires Cut(pending, maxlen) + rest == pending
    ensures pending == "" <==> Cut(pending, maxlen) == ""
    ensures pending == "" ==> rest == "" && lines + LinesOf(pending, maxlen) == lines
    ensures pending != "" ==>
              |rest| < |pending| &&
              (lines + [Cut(pending, maxlen)]) + LinesOf(rest, maxlen) == lines + LinesOf(pending, maxlen)
  {
    if pending != "" {
      CutIsSomething(pending, maxlen);
      assert pending[CutLength(pending, maxlen)..] == rest;
      AddLine(lines, Cut(pending, maxlen), LinesOf(rest, maxlen), LinesOf(pending, maxlen));
    }
  }

  lemma {:induction false} CutIsSomething(pending: string, maxlen: nat)
    requires maxlen >= 2 && pending != ""
    ensures 0 < CutLength(pending, maxlen) == |Cut(pending, maxlen)|
  {
  }

  lemma AddLine(lines: seq<string>, line: string, more: seq<string>, all: seq<string>)
    requires all == [line] + more
    ensures (lines + [line]) + more == lines + all
  {
  }

  function Concat(lines: seq<string>): string {
    if lines == [] then "" else lines[0] + Concat(lines[1..])
  }

  /** Nothing is lost, duplicated or reordered by cutting into lines. */
  lemma {:induction false} LinesJoin(stream: string, maxlen: nat)
    requires maxlen >= 2
    ensures Concat(LinesOf(stream, maxlen)) == stream
    decreases |stream|
  {
    if stream != "" {
      var n := CutLength(stream, maxlen);
      LinesJoin(stream[n..], maxlen);
      assert stream[..n] + stream[n..] == stream;
    }
  }

  /** Lines that already end in their only newline and are short enough come
      back one by one: a reader never merges or splits them. */
  lemma {:induction false} LinesComeBack(lines: seq<string>, maxlen: nat)
    requires maxlen >= 2
    requires forall i | 0 <= i < |lines| :: 0 < |lines[i]| < maxlen && LineLength(lines[i]) == |lines[i]| - 1
    ensures LinesOf(Concat(lines), maxlen) == lines
  {
    if lines != [] {
      var line, rest := lines[0], Concat(lines[1..]);
      assert lines[0][|lines[0]| - 1] == '\n';
      CutIsUnique(line, rest, maxlen);
      assert (line + rest)[CutLength(line + rest, maxlen)..] == rest;
      LinesComeBack(lines[1..], maxlen);
    }
  }
}
