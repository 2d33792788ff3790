/**
 What a tunnel reads into a line of openvpn output, the goroutines of a tunnel as methods over its
 fields, and what its owner may conclude about the lines scanned.
 */
module Tunnel {
  import opened Common
  import opened Text
  import opened TunnelMachine

  // ---------- classification ----------

  /** unicode.ToLower as far as it can produce ASCII: the letters A-Z, U+0130 and the Kelvin sign. */
  function ToLowerChar(c: char): char {
    if 'A' <= c <= 'Z' then 'a' + (c - 'A')
    else if c == '\U{0130}' then 'i'
    else if c == '\U{212A}' then 'k'
    else c
  }

  function ToLower(s: string): (r: string)
    ensures |r| == |s|
  {
    seq(|s|, i requires 0 <= i < |s| => ToLowerChar(s[i]))
  }

  predicate OccursAt(s: string, part: string, i: nat) {
    i + |part| <= |s| && s[i..i + |part|] == part
  }

  predicate Contains(s: string, part: string) {
    exists i :: 0 <= i <= |s| && OccursAt(s, part, i)
  }

  predicate ContainsAny(s: string, parts: seq<string>) {
    exists k :: 0 <= k < |parts| && Contains(s, parts[k])
  }

  const HANDSHAKE_MARKS := ["initialization sequence completed"]
  const AUTH_MARKS := ["auth_failed", "authentication failure"]
  const TUN_MARKS := ["cannot allocate tun", "cannot open tun/tap dev", "cannot ioctl", "operation not permitted"]
  const FATAL_MARKS := ["fatal error", "exiting due to fatal error"]

  function Classify(line: string): (kind: Kind)
    ensures kind != Exit
  {
    var lower := ToLower(line);
    if ContainsAny(lower, HANDSHAKE_MARKS) then Handshake
    else if ContainsAny(lower, AUTH_MARKS) then AuthFail
    else if ContainsAny(lower, TUN_MARKS) then TunFail
    else if ContainsAny(lower, FATAL_MARKS) then Fatal
    else Log
  }

  /** The tag scan puts before a line: false for standard output, true for standard error. */
  function Tag(error: bool): string { if error then "[err] " else "[out] " }

  predicate Starts(tag: string, part: string, i: nat) {
    |part| > 1 && i < |tag| && tag[i] == part[0] && (i + 1 < |tag| ==> tag[i + 1] == part[1])
  }

  /** No position of the tag can begin the part. */
  predicate Unstartable(tag: string, part: string) {
    |part| > 1 && forall i :: 0 <= i < |tag| ==> !Starts(tag, part, i)
  }

  lemma ShiftOccurrence(tag: string, text: string, part: string, i: nat)
    ensures OccursAt(tag + text, part, |tag| + i) <==> OccursAt(text, part, i)
  {
    if |tag| + i + |part| <= |tag + text| {
      assert (tag + text)[|tag| + i..|tag| + i + |part|] == text[i..i + |part|];
    }
  }

  lemma OccurrenceStarts(tag: string, text: string, part: string, i: nat)
    requires i < |tag| && |part| > 1 && OccursAt(tag + text, part, i)
    ensures Starts(tag, part, i)
  {
    var line := tag + text;
    assert line[i..i + |part|][0] == line[i] == tag[i];
    assert line[i..i + |part|][1] == line[i + 1];
  }

  lemma OccursBeyondTag(tag: string, text: string, part: string)
    requires Unstartable(tag, part)
    ensures Contains(tag + text, part) <==> Contains(text, part)
  {
    if i :| 0 <= i <= |tag + text| && OccursAt(tag + text, part, i) {
      if i < |tag| {
        OccurrenceStarts(tag, text, part, i);
        assert false;
      } else {
        ShiftOccurrence(tag, text, part, i - |tag|);
      }
    }
    if i :| 0 <= i <= |text| && OccursAt(text, part, i) { ShiftOccurrence(tag, text, part, i); }
  }

  lemma AnyBeyondTag(tag: string, text: string, parts: seq<string>)
    requires forall k :: 0 <= k < |parts| ==> Unstartable(tag, parts[k])
    ensures ContainsAny(tag + text, parts) <==> ContainsAny(text, parts)
  {
    forall k | 0 <= k < |parts| ensures Contains(tag + text, parts[k]) <==> Contains(text, parts[k]) {
      OccursBeyondTag(tag, text, parts[k]);
    }
  }

  lemma TagIsLower(error: bool, text: string)
    ensures ToLower(Tag(error) + text) == Tag(error) + ToLower(text)
  {
  }

  /** The tag never decides: a line is classified as its text is. */
  lemma TagIsNeutral(error: bool, text: string)
    ensures Classify(Tag(error) + text) == Classify(text)
  {
    var tag, lower := Tag(error), ToLower(text);
    TagIsLower(error, text);
    AnyBeyondTag(tag, lower, HANDSHAKE_MARKS);
    AnyBeyondTag(tag, lower, AUTH_MARKS);
    AnyBeyondTag(tag, lower, TUN_MARKS);
    AnyBeyondTag(tag, lower, FATAL_MARKS);
  }

  /** Letter case never decides. */
  lemma CaseIsNeutral(a: string, b: string)
    requires ToLower(a) == ToLower(b)
    ensures Classify(a) == Classify(b)
  {
  }

  /** The marks of a class, most decisive class first. */
  function Marks(rank: nat): seq<string> {
    match rank
    case 0 => HANDSHAKE_MARKS
    case 1 => AUTH_MARKS
    case 2 => TUN_MARKS
    case 3 => FATAL_MARKS
    case _ => []
  }

  function Rank(kind: Kind): nat {
    match kind
    case Handshake => 0
    case AuthFail => 1
    case TunFail => 2
    case Fatal => 3
    case _ => 4
  }

  /** A line belongs to the first class one of whose marks it carries in any letter case. */
  lemma FirstMarkDecides(line: string)
    ensures forall r :: 0 <= r < Rank(Classify(line)) ==> !ContainsAny(ToLower(line), Marks(r))
    ensures Classify(line) != Log ==> ContainsAny(ToLower(line), Marks(Rank(Classify(line))))
  {
  }

  lemma ContainsInside(before: string, text: string, after: string, part: string)
    ensures Contains(text, part) ==> Contains(before + text + after, part)
  {
    if i :| 0 <= i <= |text| && OccursAt(text, part, i) {
      var line := before + text + after;
      assert line[|before| + i..|before| + i + |part|] == text[i..i + |part|];
      assert OccursAt(line, part, |before| + i);
    }
  }

  lemma AnyInside(before: string, text: string, after: string, parts: seq<string>)
    ensures ContainsAny(text, parts) ==> ContainsAny(before + text + after, parts)
  {
    if k :| 0 <= k < |parts| && Contains(text, parts[k]) { ContainsInside(before, text, after, parts[k]); }
  }

  /** In any mix of letter cases, more text around a line never makes it less decisive. */
  lemma ContextNeverHides(before: string, text: string, after: string, line: string)
    requires ToLower(line) == ToLower(before + text + after)
    ensures Rank(Classify(line)) <= Rank(Classify(text))
  {
    var whole := before + text + after;
    CaseIsNeutral(line, whole);
    assert ToLower(whole) == ToLower(before) + ToLower(text) + ToLower(after);
    if Classify(text) != Log {
      var r := Rank(Classify(text));
      FirstMarkDecides(text);
      FirstMarkDecides(whole);
      AnyInside(ToLower(before), ToLower(text), ToLower(after), Marks(r));
    }
  }

  // ---------- what a line must say to be of a class ----------

  /** The character is the given lower-case one, in either case or as one of the two letters lowered to ASCII. */
  predicate SameLetter(c: char, d: char) {
    || c == d
    || ('a' <= d <= 'z' && c as int == d as int - 32)
    || (d == 'i' && c == '\U{0130}')
    || (d == 'k' && c == '\U{212A}')
  }

  predicate SaysAt(line: string, phrase: string, i: nat) {
    i + |phrase| <= |line| && forall k :: 0 <= k < |phrase| ==> SameLetter(line[i + k], phrase[k])
  }

  /** Somewhere in the line stands the phrase, in any mix of letter cases. */
  predicate Says(line: string, phrase: string) { exists i :: 0 <= i <= |line| && SaysAt(line, phrase, i) }

  predicate SaysAuthFailed(line: string) { Says(line, "auth_failed") || Says(line, "authentication failure") }

  predicate SaysNoTunnel(line: string) {
    || Says(line, "cannot allocate tun") || Says(line, "cannot open tun/tap dev")
    || Says(line, "cannot ioctl") || Says(line, "operation not permitted")
  }

  predicate SaysFatal(line: string) { Says(line, "fatal error") || Says(line, "exiting due to fatal error") }

  /** What makes a line one of its class: its own phrases, and none of a class before it. */
  predicate Speaks(line: string, kind: Kind) {
    var up := Says(line, "initialization sequence completed");
    match kind
    case Handshake => up
    case AuthFail => !up && SaysAuthFailed(line)
    case TunFail => !up && !SaysAuthFailed(line) && SaysNoTunnel(line)
    case Fatal => !up && !SaysAuthFailed(line) && !SaysNoTunnel(line) && SaysFatal(line)
    case Log => !up && !SaysAuthFailed(line) && !SaysNoTunnel(line) && !SaysFatal(line)
    case Exit => false
  }

  /** A phrase without capitals. */
  predicate Small(phrase: string) { forall k :: 0 <= k < |phrase| ==> phrase[k] < 'A' || 'Z' < phrase[k] < '\U{0080}' }

  lemma LoweredLetter(c: char, d: char)
    requires d < 'A' || 'Z' < d < '\U{0080}'
    ensures ToLowerChar(c) == d <==> SameLetter(c, d)
  {
  }

  lemma SaysAtIsOccursAt(line: string, phrase: string, i: nat)
    requires Small(phrase)
    ensures SaysAt(line, phrase, i) <==> OccursAt(ToLower(line), phrase, i)
  {
    if i + |phrase| <= |line| {
      var part := ToLower(line)[i..i + |phrase|];
      forall k | 0 <= k < |phrase| ensures part[k] == phrase[k] <==> SameLetter(line[i + k], phrase[k]) {
        LoweredLetter(line[i + k], phrase[k]);
      }
    }
  }

  lemma SaysIsContains(line: string, phrase: string)
    requires Small(phrase)
    ensures Says(line, phrase) <==> Contains(ToLower(line), phrase)
  {
    forall i: nat ensures SaysAt(line, phrase, i) <==> OccursAt(ToLower(line), phrase, i) {
      SaysAtIsOccursAt(line, phrase, i);
    }
  }

  /** Containing one of the listed parts. */
  lemma AnyOfOne(s: string, a: string)
    ensures ContainsAny(s, [a]) <==> Contains(s, a)
  {
    if Contains(s, a) { assert Contains(s, [a][0]); }
  }

  lemma AnyOfTwo(s: string, a: string, b: string)
    ensures ContainsAny(s, [a, b]) <==> Contains(s, a) || Contains(s, b)
  {
    if Contains(s, a) { assert Contains(s, [a, b][0]); }
    if Contains(s, b) { assert Contains(s, [a, b][1]); }
  }

  lemma AnyOfFour(s: string, a: string, b: string, c: string, d: string)
    ensures ContainsAny(s, [a, b, c, d]) <==> Contains(s, a) || Contains(s, b) || Contains(s, c) || Contains(s, d)
  {
    var parts := [a, b, c, d];
    if Contains(s, a) { assert Contains(s, parts[0]); }
    if Contains(s, b) { assert Contains(s, parts[1]); }
    if Contains(s, c) { assert Contains(s, parts[2]); }
    if Contains(s, d) { assert Contains(s, parts[3]); }
  }

  lemma TwoSaid(line: string, a: string, b: string)
    requires Small(a) && Small(b)
    ensures ContainsAny(ToLower(line), [a, b]) <==> Says(line, a) || Says(line, b)
  {
    AnyOfTwo(ToLower(line), a, b);
    SaysIsContains(line, a);
    SaysIsContains(line, b);
  }

  lemma FourSaid(line: string, a: string, b: string, c: string, d: string)
    requires Small(a) && Small(b) && Small(c) && Small(d)
    ensures ContainsAny(ToLower(line), [a, b, c, d]) <==> Says(line, a) || Says(line, b) || Says(line, c) || Says(line, d)
  {
    AnyOfFour(ToLower(line), a, b, c, d);
    SaysIsContains(line, a);
    SaysIsContains(line, b);
    SaysIsContains(line, c);
    SaysIsContains(line, d);
  }

  lemma PhrasesAreSmall()
    ensures Small("initialization sequence completed")
    ensures Small("auth_failed") && Small("authentication failure")
    ensures Small("fatal error") && Small("exiting due to fatal error")
  {
  }

  lemma TunPhrasesAreSmall()
    ensures Small("cannot allocate tun") && Small("cannot open tun/tap dev")
    ensures Small("cannot ioctl") && Small("operation not permitted")
  {
  }

  lemma MarksSaid(line: string)
    ensures ContainsAny(ToLower(line), HANDSHAKE_MARKS) <==> Says(line, "initialization sequence completed")
    ensures ContainsAny(ToLower(line), AUTH_MARKS) <==> SaysAuthFailed(line)
    ensures ContainsAny(ToLower(line), FATAL_MARKS) <==> SaysFatal(line)
  {
    PhrasesAreSmall();
    AnyOfOne(ToLower(line), "initialization sequence completed");
    SaysIsContains(line, "initialization sequence completed");
    TwoSaid(line, "auth_failed", "authentication failure");
    TwoSaid(line, "fatal error", "exiting due to fatal error");
  }

  lemma TunMarksSaid(line: string)
    ensures ContainsAny(ToLower(line), TUN_MARKS) <==> SaysNoTunnel(line)
  {
    TunPhrasesAreSmall();
    FourSaid(line, "cannot allocate tun", "cannot open tun/tap dev", "cannot ioctl", "operation not permitted");
  }

  /** A line is of a class exactly if it says so, in whatever mix of letter cases. */
  lemma ClassMeansPhrase(line: string, kind: Kind)
    ensures Classify(line) == kind <==> Speaks(line, kind)
  {
    MarksSaid(line);
    TunMarksSaid(line);
  }

  // ---------- the device ----------

  predicate IsTunnelDevice(name: string) {
    var prefix := if HasPrefix(name, "utun") then "utun" else "tun";
    HasPrefix(name, prefix) && |name| != |prefix| && forall i :: |prefix| <= i < |name| ==> IsDigit(name[i])
  }

  predicate InCutset(c: char) { c in "[]():,." }

  function TrimCutset(s: string): string {
    if s != "" && InCutset(s[0]) then TrimCutset(s[1..])
    else if s != "" && InCutset(s[|s| - 1]) then TrimCutset(s[..|s| - 1])
    else s
  }

  function DeviceName(field: string): string {
    var bare := TrimCutset(field);
    if HasPrefix(bare, "/dev/") then bare[5..] else bare
  }

  function FirstDevice(fields: seq<string>): Option<string> {
    if fields == [] then None
    else if IsTunnelDevice(DeviceName(fields[0])) then Some(DeviceName(fields[0]))
    else FirstDevice(fields[1..])
  }

  /** The device a line reports, if any. */
  function Reported(line: string): Option<string> { FirstDevice(Fields(line)) }

  /** What is handed to the ip command is a plain interface name. */
  lemma TunnelDeviceShape(name: string)
    ensures IsTunnelDevice(name) <==>
      exists n :: 0 <= n <= |name| && AllDigits(name[n..]) && (name[..n] == "tun" || name[..n] == "utun")
  {
    if IsTunnelDevice(name) {
      var n := if HasPrefix(name, "utun") then 4 else 3;
      assert AllDigits(name[n..]);
      assert name[..n] == "tun" || name[..n] == "utun";
    }
    if n :| 0 <= n <= |name| && AllDigits(name[n..]) && (name[..n] == "tun" || name[..n] == "utun") {
      assert name[n..] != "" && name[n] == name[n..][0] && name[..n][0] == name[0];
      forall i | n <= i < |name| ensures IsDigit(name[i]) { assert name[n..][i - n] == name[i]; }
    }
  }

  lemma {:induction false} FirstDeviceIsDevice(fields: seq<string>)
    ensures FirstDevice(fields).Some? ==> IsTunnelDevice(FirstDevice(fields).value)
  {
    if fields != [] { FirstDeviceIsDevice(fields[1..]); }
  }

  lemma DeviceNamesItself(name: string)
    requires IsTunnelDevice(name)
    ensures DeviceName(name) == name
  {
    assert name[0] == 't' || name[0] == 'u';
    assert IsDigit(name[|name| - 1]);
  }

  lemma {:induction false} TrimDecoration(before: string, x: string, after: string)
    requires forall c :: c in before || c in after ==> c in "[]():,."
    requires x != "" && x[0] !in "[]():,." && x[|x| - 1] !in "[]():,."
    ensures TrimCutset(before + x + after) == x
    decreases |before| + |after|
  {
    var s := before + x + after;
    if before != "" {
      assert s[0] == before[0] && s[1..] == before[1..] + x + after;
      TrimDecoration(before[1..], x, after);
    } else if after != "" {
      assert s == x + after && s[0] == x[0] && s[|s| - 1] == after[|after| - 1];
      assert s[..|s| - 1] == before + x + after[..|after| - 1];
      TrimDecoration(before, x, after[..|after| - 1]);
    } else {
      assert s == x;
    }
  }

  /** A device name is found inside brackets, parentheses and punctuation, with and without its path. */
  lemma DecoratedDevice(before: string, name: string, after: string)
    requires IsTunnelDevice(name) && forall c :: c in before || c in after ==> c in "[]():,."
    ensures DeviceName(before + name + after) == name
    ensures DeviceName(before + ("/dev/" + name) + after) == name
  {
    assert name[0] == 't' || name[0] == 'u';
    assert IsDigit(name[|name| - 1]);
    TrimDecoration(before, name, after);
    TrimDecoration(before, "/dev/" + name, after);
    assert ("/dev/" + name)[5..] == name;
  }

  /** The first field that is a device name, bare or decorated, is the one reported. */
  lemma {:induction false} FirstDeviceFound(fields: seq<string>, k: nat)
    requires k < |fields| && IsTunnelDevice(DeviceName(fields[k]))
    requires forall j :: 0 <= j < k ==> !IsTunnelDevice(DeviceName(fields[j]))
    ensures FirstDevice(fields) == Some(DeviceName(fields[k]))
  {
    if k > 0 { FirstDeviceFound(fields[1..], k - 1); }
  }

  // ---------- schedules of this tunnel ----------

  /** The device a line reports, or the empty name. */
  function DeviceOf(line: string): string {
    if Reported(line).Some? then Reported(line).value else ""
  }

  function ReadStep(line: string): ScanStep { Read(line, Classify(line), DeviceOf(line)) }

  /** A line of a scanner's text enters the protocol with the class and the device computed from it. */
  function ReadOf(who: nat, text: string): Action { Scan(who, ReadStep(Tag(who == 1) + text)) }

  /** Every line read in the schedule carries what the code computes from it. */
  predicate Faithful(acts: seq<Action>) {
    forall k :: 0 <= k < |acts| && acts[k].Scan? && acts[k].scan.Read? ==> FaithfulRead(acts[k].scan)
  }

  predicate FaithfulRead(x: ScanStep) { x.Read? && x == ReadStep(x.line) }

  predicate FaithfulNote(h: Happening) {
    h.HasRead? ==> FaithfulRead(Read(h.line, h.kind, h.device))
  }

  lemma {:induction false} NotesAreFaithful(acts: seq<Action>)
    requires Exec(acts).Some? && Faithful(acts)
    ensures forall h :: h in Exec(acts).value.log ==> FaithfulNote(h)
  {
    if acts != [] {
      var before, last := acts[..|acts| - 1], acts[|acts| - 1];
      assert forall k :: 0 <= k < |before| ==> before[k] == acts[k];
      NotesAreFaithful(before);
      var s := Exec(before).value;
      assert last.Scan? && last.scan.Read? ==> FaithfulRead(acts[|acts| - 1].scan);
      NewNotes(s, last);
    }
  }

  /** A step notes at most the line it reads. */
  lemma NewNotes(s: State, a: Action)
    requires Enabled(s, a)
    ensures forall h :: h in Do(s, a).log && h.HasRead? ==>
      h in s.log || (a.Scan? && a.scan.Read? && h == HasRead(a.scan.line, a.scan.kind, a.scan.device))
  {
    match a
    case Scan(who, x) => ScanNotes(s, who, x);
    case Reap(x) => ReapNotes(s, x);
    case Wait(x) => WaitNotes(s, x);
    case Own(x) =>
  }

  lemma ScanNotes(s: State, who: nat, x: ScanStep)
    requires ScanEnabled(s, who, x)
    ensures forall h :: h in DoScan(s, who, x).log && h.HasRead? ==>
      h in s.log || (x.Read? && h == HasRead(x.line, x.kind, x.device))
  {
  }

  lemma ReapNotes(s: State, x: ReapStep)
    requires ReapEnabled(s, x)
    ensures forall h :: h in DoReap(s, x).log && h.HasRead? ==> h in s.log
  {
  }

  lemma WaitNotes(s: State, x: WaitStep)
    requires WaitEnabled(s, x)
    ensures forall h :: h in DoWait(s, x).log && h.HasRead? ==> h in s.log
  {
  }

  /** Some scanned line is of the class. */
  ghost predicate Scanned(log: seq<Happening>, line: string) {
    exists k, d :: HasRead(line, k, d) in log
  }

  lemma {:induction false} SomeHandshakeLine(log: seq<Happening>) returns (line: string)
    requires HandshakeLines(log) > 0
    requires forall h :: h in log ==> FaithfulNote(h)
    ensures Scanned(log, line) && Classify(line) == Handshake
  {
    var last := log[|log| - 1];
    if IsHandshakeLine(last) {
      line := last.line;
      assert last in log && FaithfulNote(last) && last == HasRead(line, last.kind, last.device);
    } else {
      line := SomeHandshakeLine(log[..|log| - 1]);
    }
  }

  lemma {:induction false} CountIsPositive(log: seq<Happening>, h: Happening)
    requires h in log
    ensures Count(log, h) > 0
  {
    if log[|log| - 1] != h { CountIsPositive(log[..|log| - 1], h); }
  }

  /** WaitHandshake returns nil only after a handshake line was scanned. */
  lemma {:induction false} NilOnlyAfterHandshake(acts: seq<Action>) returns (line: string)
    requires Exec(acts).Some? && Faithful(acts) && HasWaited(Up) in Exec(acts).value.log
    ensures Scanned(Exec(acts).value.log, line) && Classify(line) == Handshake
    ensures Says(line, "initialization sequence completed")
  {
    var log := Exec(acts).value.log;
    TokenMeansHandshake(acts);
    NotesAreFaithful(acts);
    CountIsPositive(log, HasWaited(Up));
    line := SomeHandshakeLine(log);
    ClassMeansPhrase(line, Handshake);
  }

  /** A classified error carries a scanned line of that class, or the message of the exit event. */
  lemma {:induction false} ErrorsAreGenuine(acts: seq<Action>, e: Event)
    requires Exec(acts).Some? && Faithful(acts) && HasWaited(Refused(e)) in Exec(acts).value.log
    ensures e.kind in {AuthFail, TunFail, Fatal, Exit}
    ensures e.kind != Exit ==> Scanned(Exec(acts).value.log, e.line) && Classify(e.line) == e.kind && Speaks(e.line, e.kind)
    ensures e.kind == Exit ==> exists stopped :: HasReaped(e.line, stopped) in Exec(acts).value.log
    ensures e.kind == Exit ==> e.line == "openvpn stopped" || HasPrefix(e.line, "openvpn exited: ")
  {
    var log := Exec(acts).value.log;
    RunKeepsInv(acts);
    NotesAreFaithful(acts);
    if e.kind == Exit {
      var h :| h in log && h.HasReaped? && h.text == e.line;
      assert h == HasReaped(e.line, h.stopped);
      ReportsAreLatest(acts);
      assert HonestExit(h);
    } else {
      var h :| h in log && h.HasRead? && h.line == e.line && h.kind == e.kind;
      assert FaithfulNote(h) && h == HasRead(e.line, e.kind, h.device);
      ClassMeansPhrase(e.line, e.kind);
    }
  }

  /** The device handed to the egress policy is a plain interface name some scanned line reported. */
  lemma {:induction false} DeviceIsReported(acts: seq<Action>)
    requires Exec(acts).Some? && Faithful(acts)
    ensures var s := Exec(acts).value;
      && s.device == LatestDevice(s.log)
      && (s.device != "" ==> IsTunnelDevice(s.device) && exists line :: Scanned(s.log, line) && Reported(line) == Some(s.device))
  {
    var s := Exec(acts).value;
    ReportsAreLatest(acts);
    RunKeepsInv(acts);
    NotesAreFaithful(acts);
    if s.device != "" {
      var h :| h in s.log && h.HasRead? && h.device == s.device;
      assert FaithfulNote(h) && h == HasRead(h.line, h.kind, h.device);
      assert Scanned(s.log, h.line) && Reported(h.line) == Some(s.device);
      FirstDeviceIsDevice(Fields(h.line));
    }
  }
}
