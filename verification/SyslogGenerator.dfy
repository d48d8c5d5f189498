/** The generator object: component tables filled once, a cached timestamp, and
    a pooled byte buffer in which every line is assembled before it is copied out. */
module SyslogGenerator {
  import opened SyslogLine
  import opened Timestamps

  /** A Go byte slice that is appended to: `data` is the backing array, `len` its length. */
  class ByteBuffer {
    var data: array<char>
    var len: nat

    ghost predicate Valid()
      reads this
    {
      len <= data.Length
    }

    ghost function Contents(): (s: string)
      reads this, data
      requires Valid()
    {
      data[..len]
    }

    constructor (capacity: nat)
      ensures Valid() && fresh(data) && data.Length == capacity && Contents() == ""
    {
      data := new char[capacity];
      len := 0;
    }

    method Reset()
      modifies this`len
      ensures Valid() && Contents() == "" && data == old(data)
    {
      len := 0;
    }

    /** Appends in place when the bytes fit, and into a larger copy when they do not. */
    method Append(s: string)
      requires Valid()
      modifies this, data
      ensures Valid() && Contents() == old(Contents()) + s
      ensures old(len) + |s| <= old(data.Length) ==> data == old(data)
      ensures data == old(data) || fresh(data)
      ensures data.Length >= old(data.Length)
    {
      if len + |s| > data.Length {
        var larger := new char[2 * (len + |s|)];
        forall i | 0 <= i < len {
          larger[i] := data[i];
        }
        data := larger;
      }
      assert data[..len] == old(Contents());
      forall i | 0 <= i < |s| {
        data[len + i] := s[i];
      }
      assert data[..len] == old(Contents());
      assert data[len..len + |s|] == s;
      len := len + |s|;
    }

    /** The appends of the first half of a line, in the order they are made. */
    method AppendHeader(priority: string, timestamp: string, hostname: string)
      requires Valid()
      modifies this, data
      ensures Valid() && Contents() == old(Contents()) + (priority + timestamp + " " + hostname + " ")
      ensures old(len) + |priority| + |timestamp| + |hostname| + 2 <= old(data.Length) ==> data == old(data)
      ensures data == old(data) || fresh(data)
      ensures data.Length >= old(data.Length)
    {
      Append(priority);
      Append(timestamp);
      assert Contents() == old(Contents()) + (priority + timestamp);
      Append(" ");
      Append(hostname);
      assert Contents() == old(Contents()) + (priority + timestamp + " " + hostname);
      Append(" ");
    }

    method AppendBody(service: string, pid: string, message: string)
      requires Valid()
      modifies this, data
      ensures Valid() && Contents() == old(Contents()) + (service + "[" + pid + "]: " + message)
      ensures old(len) + |service| + |pid| + |message| + 4 <= old(data.Length) ==> data == old(data)
      ensures data == old(data) || fresh(data)
      ensures data.Length >= old(data.Length)
    {
      Append(service);
      Append("[");
      Append(pid);
      assert Contents() == old(Contents()) + (service + "[" + pid);
      Append("]: ");
      Append(message);
    }

    /** Starts over and assembles one line. */
    method Assemble(f: Fields)
      requires Valid()
      modifies this, data
      ensures Valid() && Contents() == Render(f)
      ensures |f.priority| + |f.timestamp| + |f.host| + |f.service| + |f.pid| + |f.message| + 6 <= old(data.Length) ==> data == old(data)
      ensures data == old(data) || fresh(data)
      ensures data.Length >= old(data.Length)
    {
      Reset();
      AppendHeader(f.priority, f.timestamp, f.host);
      AppendBody(f.service, f.pid, f.message);
    }

    /** A copy the caller may keep. */
    method CopyOut() returns (copy: array<char>)
      requires Valid()
      ensures fresh(copy) && copy[..] == Contents()
    {
      var bytes := data;
      copy := new char[len](i requires 0 <= i < bytes.Length reads bytes => bytes[i]);
    }
  }

  /** The capacity a pooled buffer starts with. */
  const POOL_CAPACITY := 300

  class SystemLogGenerator {
    var priorities: seq<string>
    var hostnames: seq<string>
    var services: seq<string>
    var pids: array<string>
    var messages: seq<string>
    var timestampCache: string
    const pool: ByteBuffer

    ghost predicate Valid()
      reads this, pids, pool
    {
      && priorities == PRIORITIES && hostnames == HOSTNAMES && services == SERVICES && messages == MESSAGES
      && pids.Length == PID_COUNT && (forall i | 0 <= i < PID_COUNT :: pids[i] == Itoa(1000 + i))
      && IsTimestamp(timestampCache)
      && pool.Valid() && pool.data.Length >= POOL_CAPACITY
    }

    constructor (timestamp: string)
      requires IsTimestamp(timestamp)
      ensures Valid() && timestampCache == timestamp
      ensures fresh(pids) && fresh(pool) && fresh(pool.data) && pool.data.Length == 300
    {
      pids := new string[PID_COUNT](i => "");
      pool := new ByteBuffer(POOL_CAPACITY);
      timestampCache := timestamp;
      new;
      InitializeLogComponents();
    }

    method InitializeLogComponents()
      requires pids.Length == PID_COUNT
      modifies this, pids
      ensures priorities == PRIORITIES && hostnames == HOSTNAMES && services == SERVICES && messages == MESSAGES
      ensures pids == old(pids) && forall i | 0 <= i < PID_COUNT :: pids[i] == Itoa(1000 + i)
      ensures timestampCache == old(timestampCache)
    {
      priorities := PRIORITIES;
      hostnames := HOSTNAMES;
      services := SERVICES;
      messages := MESSAGES;
      for i := 0 to PID_COUNT
        invariant pids == old(pids) && forall j | 0 <= j < i :: pids[j] == Itoa(1000 + j)
        invariant priorities == PRIORITIES && hostnames == HOSTNAMES && services == SERVICES && messages == MESSAGES
        invariant timestampCache == old(timestampCache)
      {
        pids[i] := Itoa(1000 + i);
      }
    }

    method UpdateTimestamp(timestamp: string)
      requires Valid() && IsTimestamp(timestamp)
      modifies this`timestampCache
      ensures Valid() && timestampCache == timestamp
    {
      timestampCache := timestamp;
    }

    /** What the updater does once a second. */
    method UpdateTimestampAt(now: Instant)
      requires Valid()
      modifies this`timestampCache
      ensures Valid() && timestampCache == Format(now) && |timestampCache| == 24
    {
      hide Format;
      FormatIsTimestamp(now);
      UpdateTimestamp(Format(now));
    }

    /** Any index into each table. */
    method Pick() returns (c: Choice)
      requires Valid()
      ensures c.Valid()
    {
      var priorityIdx: nat :| priorityIdx < |priorities| by { assert 0 < |priorities|; }
      var hostnameIdx: nat :| hostnameIdx < |hostnames| by { assert 0 < |hostnames|; }
      var serviceIdx: nat :| serviceIdx < |services| by { assert 0 < |services|; }
      var pidIdx: nat :| pidIdx < pids.Length by { assert 0 < pids.Length; }
      var messageIdx: nat :| messageIdx < |messages| by { assert 0 < |messages|; }
      c := Choice(priorityIdx, hostnameIdx, serviceIdx, pidIdx, messageIdx);
    }

    /** One line for some choice of table entries, in a fresh array. The pooled
        buffer never grows for timestamps of up to 210 bytes; the ones the
        program formats have 24. */
    method GenerateSystemLog() returns (result: array<char>, ghost choice: Choice)
      requires Valid()
      modifies pool, pool.data
      ensures Valid() && fresh(result)
      ensures choice.Valid() && result[..] == Line(choice, timestampCache)
      ensures WIDTH + |timestampCache| <= POOL_CAPACITY ==> pool.data == old(pool.data)
      ensures pool.data == old(pool.data) || fresh(pool.data)
      ensures result != pool.data
    {
      var c := Pick();
      choice := c;
      PartLengths(c, timestampCache);
      pool.Assemble(Fields(priorities[c.priority], timestampCache, hostnames[c.host], services[c.service], pids[c.pid], messages[c.message]));
      result := pool.CopyOut();
    }

    /** A run of calls between which the timestamp may be refreshed: at the end
        every line returned on the way still holds what it held when it was
        returned, although all of them were assembled in the same pooled buffer,
        which never grew. */
    method GenerateRun(timestamps: seq<string>) returns (lines: seq<array<char>>, ghost choices: seq<Choice>)
      requires Valid()
      requires forall i | 0 <= i < |timestamps| :: IsTimestamp(timestamps[i]) && |timestamps[i]| <= POOL_CAPACITY - WIDTH
      modifies this`timestampCache, pool, pool.data
      ensures Valid() && pool.data == old(pool.data)
      ensures |lines| == |timestamps| == |choices|
      ensures forall i | 0 <= i < |lines| ::
                fresh(lines[i]) && choices[i].Valid() && lines[i][..] == Line(choices[i], timestamps[i])
    {
      lines, choices := [], [];
      for n := 0 to |timestamps|
        invariant Valid() && pool.data == old(pool.data)
        invariant |lines| == n == |choices|
        invariant forall i | 0 <= i < n :: fresh(lines[i]) && lines[i] != pool.data
        invariant forall i | 0 <= i < n :: choices[i].Valid() && lines[i][..] == Line(choices[i], timestamps[i])
      {
        UpdateTimestamp(timestamps[n]);
        var line, choice := GenerateSystemLog();
        lines, choices := lines + [line], choices + [choice];
      }
    }
  }
}
