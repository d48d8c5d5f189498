/** The format of one generated line: the component tables, the printed form,
    and a parser that undoes it. Every table entry is ASCII, so one character is
    one byte. */
module SyslogLine {
  import opened Common
  import Framing

  const KERNEL_PRIORITIES: seq<string> := ["<0>", "<1>", "<2>", "<3>", "<4>", "<5>", "<6>", "<7>"]
  const MAIL_PRIORITIES: seq<string> := ["<16>", "<17>", "<18>", "<19>", "<20>", "<21>", "<22>", "<23>"]
  const DAEMON_PRIORITIES: seq<string> := ["<32>", "<33>", "<34>", "<35>", "<36>", "<37>", "<38>", "<39>"]
  const PRIORITIES: seq<string> := KERNEL_PRIORITIES + MAIL_PRIORITIES + DAEMON_PRIORITIES

  const HOSTNAMES: seq<string> := [
    "server01", "server02", "server03", "server04", "server05",
    "web01", "web02", "web03", "db01", "db02", "cache01", "cache02",
    "app01", "app02", "app03", "proxy01", "proxy02", "lb01", "lb02"]

  const SERVICES: seq<string> := [
    "systemd", "kernel", "sshd", "nginx", "apache2", "mysqld",
    "redis-server", "cron", "rsyslog", "NetworkManager", "docker",
    "kubelet", "containerd", "etcd", "prometheus", "grafana"]

  const PID_COUNT := 10000

  const SYSTEMD_MESSAGES: seq<string> := [
    "Starting nginx.service",
    "Started nginx.service",
    "Stopping nginx.service",
    "Starting docker.service",
    "Started docker.service",
    "Unit entered failed state"]

  const KERNEL_MESSAGES: seq<string> := [
    "CPU0: temperature above threshold",
    "Out of memory: Kill process",
    "device eth0: link up",
    "TCP: Possible SYN flooding on port 80",
    "oom-killer: Killed process"]

  // The longest entries are written in two pieces, which the proofs about their
  // characters can take one at a time.
  const SSH_MESSAGES: seq<string> := [
    "Accepted password for admin" + " from 192.168.1.100",
    "Failed password for admin" + " from 192.168.1.200",
    "Connection closed by 192.168.1.100",
    "pam_unix(sshd:session): " + "session opened for user admin"]

  const OTHER_MESSAGES: seq<string> := [
    "(root) CMD (/usr/bin/updatedb)",
    "action 'action 17' suspended",
    "device (eth0): state change",
    "Certificate will expire",
    "Disk space warning:" + " /var partition at 85%"]

  const MESSAGES: seq<string> := SYSTEMD_MESSAGES + KERNEL_MESSAGES + SSH_MESSAGES + OTHER_MESSAGES

  /** The decimal form of a number, as strconv.Itoa prints it. */
  function Itoa(n: nat): (s: string)
    ensures s != "" && forall i | 0 <= i < |s| :: '0' <= s[i] <= '9'
  {
    var digit := [('0' as int + n % 10) as char];
    if n < 10 then digit else Itoa(n / 10) + digit
  }

  function Atoi(s: string): Option<nat> {
    if s == "" then None
    else if !('0' <= s[|s| - 1] <= '9') then None
    else
      var digit := s[|s| - 1] as int - '0' as int;
      if |s| == 1 then Some(digit)
      else match Atoi(s[..|s| - 1])
           case None => None
           case Some(n) => Some(10 * n + digit)
  }

  lemma {:induction false} AtoiItoa(n: nat)
    ensures Atoi(Itoa(n)) == Some(n)
  {
    var s := Itoa(n);
    if n >= 10 {
      AtoiItoa(n / 10);
      assert s[..|s| - 1] == Itoa(n / 10);
    }
  }

  /** The six parts of a line, as they are printed. */
  datatype Fields = Fields(priority: string, timestamp: string, host: string,
                           service: string, pid: string, message: string) {
    /** Each part can be told from the separator that follows it. */
    predicate Separable() {
      && 2 <= |priority| && priority[0] == '<' && priority[|priority| - 1] == '>'
      && '>' !in priority[..|priority| - 1]
      && ' ' !in timestamp && ' ' !in host && '[' !in service && ']' !in pid
    }
  }

  function Render(f: Fields): string {
    f.priority + f.timestamp + " " + f.host + " " + f.service + "[" + f.pid + "]: " + f.message
  }

  /** The text before and after the first occurrence of a character. */
  function Cut(s: string, at: char): (r: Option<(string, string)>)
    ensures r.None? <==> at !in s
    ensures r.Some? ==> at !in r.value.0 && s == r.value.0 + [at] + r.value.1
  {
    if s == "" then None
    else if s[0] == at then Some(("", s[1..]))
    else match Cut(s[1..], at)
         case None => None
         case Some((before, after)) => Some(([s[0]] + before, after))
  }

  function Parse(line: string): Option<Fields> {
    if line == "" || line[0] != '<' then None else
    match Cut(line, '>')
    case None => None
    case Some((open, r0)) =>
      match Cut(r0, ' ')
      case None => None
      case Some((timestamp, r1)) =>
        match Cut(r1, ' ')
        case None => None
        case Some((host, r2)) =>
          match Cut(r2, '[')
          case None => None
          case Some((service, r3)) =>
            match Cut(r3, ']')
            case None => None
            case Some((pid, r4)) =>
              if |r4| < 2 || r4[..2] != ": " then None
              else Some(Fields(open + ">", timestamp, host, service, pid, r4[2..]))
  }

  lemma {:induction false} CutAt(before: string, at: char, after: string)
    requires at !in before
    ensures Cut(before + [at] + after, at) == Some((before, after))
  {
    var s := before + [at] + after;
    if before == "" {
      assert s[1..] == after;
    } else {
      CutAt(before[1..], at, after);
      assert s[1..] == before[1..] + [at] + after;
      assert [s[0]] + before[1..] == before;
    }
  }

  /** The printed form, grouped the way the parser takes it apart. */
  lemma RenderNested(f: Fields)
    ensures Render(f) == f.priority + (f.timestamp + " " + (f.host + " " + (f.service + "[" + (f.pid + "]" + (": " + f.message)))))
  {
  }

  /** Parsing undoes printing. */
  lemma ParseRender(f: Fields)
    requires f.Separable()
    ensures Parse(Render(f)) == Some(f)
  {
    var open := f.priority[..|f.priority| - 1];
    var r4 := ": " + f.message;
    var r3 := f.pid + "]" + r4;
    var r2 := f.service + "[" + r3;
    var r1 := f.host + " " + r2;
    var r0 := f.timestamp + " " + r1;
    RenderNested(f);
    assert f.priority == open + ">";
    assert Render(f) == open + ">" + r0;
    CutAt(open, '>', r0);
    CutAt(f.timestamp, ' ', r1);
    CutAt(f.host, ' ', r2);
    CutAt(f.service, '[', r3);
    CutAt(f.pid, ']', r4);
    assert r4[..2] == ": " && r4[2..] == f.message;
  }

  /** Printing undoes parsing, so a line parses in exactly one way. */
  lemma RenderParse(line: string)
    requires Parse(line).Some?
    ensures Parse(line).value.Separable() && Render(Parse(line).value) == line
  {
    hide Render;
    var f := Parse(line).value;
    var (open, r0) := Cut(line, '>').value;
    assert line == (open + ">") + r0;
    assert open[0] == '<' && f.priority[..|f.priority| - 1] == open;
    var (_, r1) := Cut(r0, ' ').value;
    var (_, r2) := Cut(r1, ' ').value;
    var (_, r3) := Cut(r2, '[').value;
    var (_, r4) := Cut(r3, ']').value;
    assert r4 == r4[..2] + r4[2..];
    RenderNested(f);
  }

  /** One choice of table entries. */
  datatype Choice = Choice(priority: nat, host: nat, service: nat, pid: nat, message: nat) {
    predicate Valid() {
      priority < |PRIORITIES| && host < |HOSTNAMES| && service < |SERVICES| && pid < PID_COUNT && message < |MESSAGES|
    }

    function Facility(): nat { 2 * (priority / 8) }

    function Severity(): nat { priority % 8 }

    function Parts(timestamp: string): Fields
      requires Valid()
    {
      Fields(PRIORITIES[priority], timestamp, HOSTNAMES[host], SERVICES[service], Itoa(1000 + pid), MESSAGES[message])
    }
  }

  function Line(c: Choice, timestamp: string): string
    requires c.Valid()
  {
    Render(c.Parts(timestamp))
  }

  // ---- the tables ----

  predicate Fits(s: string, width: nat, barred: string) {
    1 <= |s| <= width && forall i | 0 <= i < |s| :: s[i] as int < 128 && s[i] !in barred
  }

  lemma HostnamesFit(i: nat)
    requires i < |HOSTNAMES|
    ensures Fits(HOSTNAMES[i], 8, " \n")
  {
  }

  lemma ServicesFit(i: nat)
    requires i < |SERVICES|
    ensures Fits(SERVICES[i], 14, "[\n")
  {
    hide Fits;
    if i < 5 { ServicesFitLow(i); } else if i < 10 { ServicesFitMiddle(i); } else { ServicesFitHigh(i); }
  }

  lemma ServicesFitLow(i: nat)
    requires i < 5
    ensures Fits(SERVICES[i], 14, "[\n")
  {
  }

  lemma ServicesFitMiddle(i: nat)
    requires 5 <= i < 10
    ensures Fits(SERVICES[i], 14, "[\n")
  {
  }

  lemma ServicesFitHigh(i: nat)
    requires 10 <= i < |SERVICES|
    ensures Fits(SERVICES[i], 14, "[\n")
  {
  }

  lemma SystemdMessagesFit(i: nat)
    requires i < |SYSTEMD_MESSAGES|
    ensures Fits(SYSTEMD_MESSAGES[i], 53, "\n")
  {
  }

  lemma KernelMessagesFit(i: nat)
    requires i < |KERNEL_MESSAGES|
    ensures Fits(KERNEL_MESSAGES[i], 53, "\n")
  {
    hide Fits;
    if i < 3 { KernelMessagesFitLow(i); } else { KernelMessagesFitHigh(i); }
  }

  lemma KernelMessagesFitLow(i: nat)
    requires i < 3
    ensures Fits(KERNEL_MESSAGES[i], 53, "\n")
  {
  }

  lemma KernelMessagesFitHigh(i: nat)
    requires 3 <= i < 5
    ensures Fits(KERNEL_MESSAGES[i], 53, "\n")
  {
  }

  lemma SshMessagesFit(i: nat)
    requires i < |SSH_MESSAGES|
    ensures Fits(SSH_MESSAGES[i], 53, "\n")
  {
    hide Fits;
    if i < 2 { SshMessagesFitLow(i); } else if i == 2 { ClosedMessageFits(); } else { SessionMessageFits(); }
  }

  lemma SshMessagesFitLow(i: nat)
    requires i < 2
    ensures Fits(SSH_MESSAGES[i], 53, "\n")
  {
  }

  lemma ClosedMessageFits()
    ensures Fits(SSH_MESSAGES[2], 53, "\n")
  {
  }

  lemma SessionMessageFits()
    ensures Fits(SSH_MESSAGES[3], 53, "\n")
  {
  }

  lemma OtherMessagesFit(i: nat)
    requires i < |OTHER_MESSAGES|
    ensures Fits(OTHER_MESSAGES[i], 53, "\n")
  {
    hide Fits;
    if i < 3 { OtherMessagesFitLow(i); } else { OtherMessagesFitHigh(i); }
  }

  lemma OtherMessagesFitLow(i: nat)
    requires i < 3
    ensures Fits(OTHER_MESSAGES[i], 53, "\n")
  {
  }

  lemma OtherMessagesFitHigh(i: nat)
    requires 3 <= i < 5
    ensures Fits(OTHER_MESSAGES[i], 53, "\n")
  {
  }

  lemma MessagesFit(i: nat)
    requires i < |MESSAGES|
    ensures Fits(MESSAGES[i], 53, "\n")
  {
    hide Fits;
    if i < 6 { SystemdMessagesFit(i); }
    else if i < 11 { KernelMessagesFit(i - 6); }
    else if i < 15 { SshMessagesFit(i - 11); }
    else { OtherMessagesFit(i - 15); }
  }

  lemma SmallItoa(n: nat)
    requires n < 100
    ensures n < 10 ==> Itoa(n) == [('0' as int + n) as char]
    ensures n >= 10 ==> Itoa(n) == [('0' as int + n / 10) as char, ('0' as int + n % 10) as char]
  {
  }

  lemma KernelPriorities(i: nat)
    requires i < 8
    ensures KERNEL_PRIORITIES[i] == "<" + Itoa(i) + ">"
  {
    SmallItoa(i);
  }

  lemma MailPriorities(i: nat)
    requires i < 8
    ensures MAIL_PRIORITIES[i] == "<" + Itoa(16 + i) + ">"
  {
    SmallItoa(16 + i);
  }

  lemma DaemonPriorities(i: nat)
    requires i < 8
    ensures DAEMON_PRIORITIES[i] == "<" + Itoa(32 + i) + ">"
  {
    SmallItoa(32 + i);
  }

  /** Entry i of the priority table is PRI = 8 * facility + severity in angle
      brackets, as section 4.1.1 of RFC 3164 defines it, with facilities 0, 2 and 4. */
  lemma PrioritiesEncode(c: Choice)
    requires c.Valid()
    ensures c.Facility() in {0, 2, 4} && c.Severity() < 8
    ensures PRIORITIES[c.priority] == "<" + Itoa(8 * c.Facility() + c.Severity()) + ">"
  {
    hide Itoa;
    var i := c.priority;
    if i < 8 { KernelPriorities(i); }
    else if i < 16 { MailPriorities(i - 8); }
    else { DaemonPriorities(i - 16); }
  }

  lemma ThreeDigits(n: nat)
    requires 100 <= n < 1000
    ensures |Itoa(n)| == 3
  {
    SmallItoa(n / 10);
  }

  lemma FourDigits(n: nat)
    requires 1000 <= n < 10000
    ensures |Itoa(n)| == 4
  {
    ThreeDigits(n / 10);
  }

  lemma PidLength(n: nat)
    requires 1000 <= n < 11000
    ensures |Itoa(n)| == if n < 10000 then 4 else 5
  {
    if n < 10000 { FourDigits(n); } else { FourDigits(n / 10); }
  }

  lemma PriorityShape(c: Choice)
    requires c.Valid()
    ensures var p := PRIORITIES[c.priority];
            && 3 <= |p| <= 4 && p[0] == '<' && p[|p| - 1] == '>'
            && '>' !in p[..|p| - 1] && '\n' !in p && Ascii(p)
            && Atoi(p[1..|p| - 1]) == Some(8 * c.Facility() + c.Severity())
  {
    hide Choice.Facility, Choice.Severity, Itoa, Atoi;
    PrioritiesEncode(c);
    BracketShape(8 * c.Facility() + c.Severity(), PRIORITIES[c.priority]);
  }

  lemma BracketShape(n: nat, p: string)
    requires n < 100 && p == "<" + Itoa(n) + ">"
    ensures 3 <= |p| <= 4 && p[0] == '<' && p[|p| - 1] == '>'
    ensures '>' !in p[..|p| - 1] && '\n' !in p && Ascii(p)
    ensures Atoi(p[1..|p| - 1]) == Some(n)
  {
    AtoiItoa(n);
    SmallItoa(n);
    assert p[1..|p| - 1] == Itoa(n);
  }

  predicate Ascii(s: string) {
    forall i | 0 <= i < |s| :: s[i] as int < 128
  }

  /** A cached timestamp the line format can carry. */
  predicate IsTimestamp(t: string) {
    ' ' !in t && '\n' !in t && Ascii(t)
  }

  /** The bytes of a line besides its timestamp number at most 90. */
  const WIDTH := 90

  lemma PartsFit(c: Choice, t: string)
    requires c.Valid() && IsTimestamp(t)
    ensures var f := c.Parts(t);
            && 3 <= |f.priority| <= 4 && |f.host| <= 8 && |f.service| <= 14 && |f.pid| <= 5 && |f.message| <= 53
            && f.Separable()
            && Ascii(f.priority) && Ascii(f.host) && Ascii(f.service) && Ascii(f.pid) && Ascii(f.message)
            && '\n' !in f.priority && '\n' !in f.host && '\n' !in f.service && '\n' !in f.pid && '\n' !in f.message
            && Atoi(f.pid) == Some(1000 + c.pid)
  {
    var f := c.Parts(t);
    PriorityShape(c);
    PidLength(1000 + c.pid);
    AtoiItoa(1000 + c.pid);
    HostnamesFit(c.host);
    ServicesFit(c.service);
    MessagesFit(c.message);
    assert ' ' in " \n" && '\n' in " \n" && '[' in "[\n" && '\n' in "[\n" && '\n' in "\n";
    forall i | 0 <= i < |f.pid| ensures '0' <= f.pid[i] <= '9' { }
  }

  lemma PartLengths(c: Choice, t: string)
    requires c.Valid() && IsTimestamp(t)
    ensures var f := c.Parts(t);
            |f.priority| + |f.host| + |f.service| + |f.pid| + |f.message| + 6 <= WIDTH
  {
    PartsFit(c, t);
  }

  /** A printed line is a single ASCII line of at most 90 bytes plus its
      timestamp, and parsing it recovers every part, the PRI number and the PID. */
  lemma GeneratedLine(c: Choice, t: string)
    requires c.Valid() && IsTimestamp(t)
    ensures var line := Line(c, t);
            && Framing.IsLine(line) && Ascii(line) && |line| <= WIDTH + |t|
            && Parse(line) == Some(c.Parts(t))
            && var f := Parse(line).value;
               && Atoi(f.priority[1..|f.priority| - 1]) == Some(8 * c.Facility() + c.Severity())
               && f.timestamp == t
               && f.host == HOSTNAMES[c.host] && f.service == SERVICES[c.service]
               && Atoi(f.pid) == Some(1000 + c.pid)
               && f.message == MESSAGES[c.message]
  {
    hide Parse, Itoa, Atoi;
    PartsFit(c, t);
    PriorityShape(c);
    ParseRender(c.Parts(t));
    RenderKeeps(c.Parts(t));
  }

  lemma RenderKeeps(f: Fields)
    ensures |Render(f)| == |f.priority| + |f.timestamp| + |f.host| + |f.service| + |f.pid| + |f.message| + 6
    ensures Ascii(f.priority) && Ascii(f.timestamp) && Ascii(f.host) && Ascii(f.service) && Ascii(f.pid) && Ascii(f.message) ==> Ascii(Render(f))
    ensures '\n' !in f.priority && '\n' !in f.timestamp && '\n' !in f.host && '\n' !in f.service && '\n' !in f.pid && '\n' !in f.message ==> '\n' !in Render(f)
  {
  }

  /** Equal lines were printed from the same priority, timestamp, host, service,
      process number and message. */
  lemma LinesAreDistinct(c: Choice, t: string, c': Choice, t': string)
    requires c.Valid() && IsTimestamp(t) && c'.Valid() && IsTimestamp(t')
    requires Line(c, t) == Line(c', t')
    ensures t == t' && c.priority == c'.priority && c.pid == c'.pid
    ensures HOSTNAMES[c.host] == HOSTNAMES[c'.host] && SERVICES[c.service] == SERVICES[c'.service]
    ensures MESSAGES[c.message] == MESSAGES[c'.message]
  {
    hide Parse, Render, Itoa, Atoi, Line;
    GeneratedLine(c, t);
    GeneratedLine(c', t');
    PriIsIndex(c, c');
  }

  lemma PriIsIndex(c: Choice, c': Choice)
    requires 8 * c.Facility() + c.Severity() == 8 * c'.Facility() + c'.Severity()
    ensures c.priority == c'.priority
  {
  }

  /** The longest line: 90 bytes plus the timestamp are needed. */
  lemma LongestLine(t: string) returns (c: Choice)
    ensures c.Valid() && |Line(c, t)| == WIDTH + |t|
  {
    c := Choice(8, 0, 9, 9000, 14);
    PidLength(10000);
    assert MESSAGES[14] == SSH_MESSAGES[3];
    assert |SERVICES[9]| == 14 && |HOSTNAMES[0]| == 8 && |PRIORITIES[8]| == 4 && |SSH_MESSAGES[3]| == 53;
    RenderKeeps(c.Parts(t));
  }
}
