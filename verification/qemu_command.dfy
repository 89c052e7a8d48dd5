/**
 * `QemuUtils.buildQemuCommand`: the QEMU launch command built from a disk
 * image path and a set of option overrides merged onto the defaults.
 *
 * The command is modelled in two layers: `Plan` chooses the flags (which
 * ones appear, in which order, with which arguments) and `Render` spells
 * each flag out. `BuildQemuCommand` is the program name followed by the
 * rendered plan.
 */
module QemuCommand {
  import opened Wrappers
  import opened JsStrings
  import opened JsValues

  /** The options the builder reads, after merging. */
  datatype Options = Options(
    memory: JsValue,
    cpus: JsValue,
    ports: JsValue,
    vnc: JsValue,
    daemonize: JsValue,
    pidFile: JsValue)

  /** The caller's `options` object: each field is either an own property (`Some`) or absent. */
  datatype Overrides = Overrides(
    memory: Option<JsValue>,
    cpus: Option<JsValue>,
    ports: Option<JsValue>,
    vnc: Option<JsValue>,
    daemonize: Option<JsValue>,
    pidFile: Option<JsValue>)

  const NoOverrides: Overrides := Overrides(None, None, None, None, None, None)

  /** The default port map, in the order its properties are written: host port to guest port. */
  const DefaultPorts: seq<Entry> :=
    [("8080", Num(8080)), ("5900", Num(5900)), ("6900", Num(6900)), ("2222", Num(22))]

  const DefaultOptions: Options :=
    Options(Str("1G"), Num(2), Obj(DefaultPorts), Bool(true), Bool(true), Str("/tmp/desqemu-vm.pid"))

  /**
   * `{ ...defaultOptions, ...options }`: a shallow merge. An override,
   * even one holding `undefined`, replaces the default field as a whole.
   */
  function Merge(o: Overrides): Options {
    Options(
      o.memory.GetOr(DefaultOptions.memory),
      o.cpus.GetOr(DefaultOptions.cpus),
      o.ports.GetOr(DefaultOptions.ports),
      o.vnc.GetOr(DefaultOptions.vnc),
      o.daemonize.GetOr(DefaultOptions.daemonize),
      o.pidFile.GetOr(DefaultOptions.pidFile))
  }

  const DefaultProgram: string := "qemu-system-x86_64"

  /** `this.qemuPath || 'qemu-system-x86_64'`: a null or empty known path falls back to the default binary. */
  function Program(knownPath: Option<string>): (p: string)
    ensures knownPath.Some? && |knownPath.value| > 0 ==> p == knownPath.value
    ensures knownPath.None? || knownPath.value == "" ==> p == DefaultProgram
  {
    if knownPath.Some? && |knownPath.value| > 0 then knownPath.value else DefaultProgram
  }

  const NullishError: string := "Cannot convert undefined or null to object"

  /**
   * `Object.entries(v)`: fails on `undefined` and `null`, is empty for
   * booleans and numbers, lists a string's characters under their
   * indices, and follows property order for an object.
   */
  function EntriesOf(v: JsValue): (r: Result<seq<Entry>>)
    ensures r.Err? <==> v == Undefined || v == Null
    ensures v.Obj? ==> r == Ok(OwnEntries(v.props))
  {
    match v
    case Undefined => Err(NullishError)
    case Null => Err(NullishError)
    case Bool(_) => Ok([])
    case Num(_) => Ok([])
    case Str(s) => Ok(seq(|s|, i requires 0 <= i < |s| => (NatToDecimal(i), Str([s[i]]))))
    case Obj(props) => Ok(OwnEntries(props))
  }

  /** One port forward, `hostfwd=tcp::H-:G`. */
  function HostForward(e: Entry): string {
    "hostfwd=tcp::" + e.0 + "-:" + Interpolate(e.1)
  }

  function HostForwards(es: seq<Entry>): (r: seq<string>)
    ensures |r| == |es|
    ensures forall i :: 0 <= i < |es| ==> r[i] == HostForward(es[i])
  {
    seq(|es|, i requires 0 <= i < |es| => HostForward(es[i]))
  }

  /** The pieces of the command after the program name. */
  datatype Flag =
    | Memory(size: string)
    | Cpus(count: string)
    | Netdev(forwards: seq<string>)
    | NetDevice
    | VncDisplay
    | Daemonize
    | PidFile(path: string)
    | Drive(image: string)

  /** The position a flag kind takes in the command. */
  function Rank(f: Flag): nat {
    match f
    case Memory(_) => 0
    case Cpus(_) => 1
    case Netdev(_) => 2
    case NetDevice => 3
    case VncDisplay => 4
    case Daemonize => 5
    case PidFile(_) => 6
    case Drive(_) => 7
  }

  function RenderFlag(f: Flag): string {
    match f
    case Memory(size) => " -m " + size
    case Cpus(count) => " -smp " + count
    case Netdev(forwards) => " -netdev user,id=net0," + Join(forwards, ",")
    case NetDevice => " -device e1000,netdev=net0"
    case VncDisplay => " -vnc :0,password"
    case Daemonize => " -daemonize"
    case PidFile(path) => " -pidfile " + path
    case Drive(image) => " -drive file=" + image + ",format=qcow2,if=virtio"
  }

  function Render(fs: seq<Flag>): string
    decreases |fs|
  {
    if |fs| == 0 then "" else RenderFlag(fs[0]) + Render(fs[1..])
  }

  /** Rendering distributes over concatenation of flag lists. */
  lemma {:induction false} RenderAppend(a: seq<Flag>, b: seq<Flag>)
    ensures Render(a + b) == Render(a) + Render(b)
    decreases |a|
  {
    if |a| > 0 {
      var head, rest := RenderFlag(a[0]), a[1..];
      assert (a + b)[0] == a[0];
      assert (a + b)[1..] == rest + b;
      assert Render(a + b) == head + Render(rest + b);
      RenderAppend(rest, b);
      assert Render(a) == head + Render(rest);
      Regroup(head, Render(rest), Render(b));
    } else {
      assert a + b == b;
    }
  }

  /** Consecutive flags strictly increase in rank. */
  predicate Ranked(fs: seq<Flag>) {
    forall i :: 0 <= i < |fs| - 1 ==> Rank(fs[i]) < Rank(fs[i + 1])
  }

  /** A ranked flag list lists its kinds in rank order, each at most once. */
  lemma {:induction false} RankedPairwise(fs: seq<Flag>, i: nat, j: nat)
    requires Ranked(fs) && i < j < |fs|
    ensures Rank(fs[i]) < Rank(fs[j])
    decreases j - i
  {
    if i + 1 < j {
      RankedPairwise(fs, i + 1, j);
    }
  }

  lemma RankedAppend(a: seq<Flag>, b: seq<Flag>)
    requires Ranked(a) && Ranked(b)
    requires |a| > 0 && |b| > 0 ==> Rank(a[|a| - 1]) < Rank(b[0])
    ensures Ranked(a + b)
  {
    var r := a + b;
    forall i | 0 <= i < |r| - 1 ensures Rank(r[i]) < Rank(r[i + 1]) {
      if i + 1 < |a| {
        assert r[i] == a[i] && r[i + 1] == a[i + 1];
      } else if i + 1 == |a| {
        assert r[i] == a[|a| - 1] && r[i + 1] == b[0];
      } else {
        assert r[i] == b[i - |a|] && r[i + 1] == b[i + 1 - |a|];
      }
    }
  }

  /** The switch flags: `-vnc`, `-daemonize` and `-pidfile`, each present when its option is truthy. */
  function SwitchFlags(o: Options): (r: seq<Flag>)
    ensures |r| <= 3 && Ranked(r)
    ensures forall i :: 0 <= i < |r| ==> 4 <= Rank(r[i]) <= 6
  {
    var vnc := if Truthy(o.vnc) then [VncDisplay] else [];
    var daemon := if Truthy(o.daemonize) then [Daemonize] else [];
    var pid := if Truthy(o.pidFile) then [PidFile(Interpolate(o.pidFile))] else [];
    vnc + daemon + pid
  }

  /** Which switch flags are present, and the path the pid-file flag carries. */
  lemma SwitchMembers(o: Options)
    ensures var r := SwitchFlags(o);
      && (VncDisplay in r <==> Truthy(o.vnc))
      && (Daemonize in r <==> Truthy(o.daemonize))
      && (PidFile(Interpolate(o.pidFile)) in r <==> Truthy(o.pidFile))
      && (forall i :: 0 <= i < |r| && r[i].PidFile? ==> r[i].path == Interpolate(o.pidFile))
  {
  }

  /** The four flags every command starts with. */
  function HeadFlags(o: Options, entries: seq<Entry>): seq<Flag> {
    [Memory(Interpolate(o.memory)), Cpus(Interpolate(o.cpus)), Netdev(HostForwards(entries)), NetDevice]
  }

  /**
   * The flags of the command for merged options `o`, port entries
   * `entries` and image `image`: the head flags, the switch flags, and
   * the drive.
   */
  function Plan(o: Options, entries: seq<Entry>, image: string): (r: seq<Flag>)
    ensures 5 <= |r| <= 8
    ensures r[..4] == HeadFlags(o, entries) && r[4..|r| - 1] == SwitchFlags(o)
    ensures r[|r| - 1] == Drive(image)
  {
    HeadFlags(o, entries) + SwitchFlags(o) + [Drive(image)]
  }

  /** Every command has exactly one flag of each kind `-m`, `-smp`, `-netdev`, `-device`, `-drive`, in that order. */
  lemma PlanFrame(o: Options, entries: seq<Entry>, image: string)
    ensures var r := Plan(o, entries, image);
      && r[0] == Memory(Interpolate(o.memory)) && r[1] == Cpus(Interpolate(o.cpus))
      && r[2] == Netdev(HostForwards(entries)) && r[3] == NetDevice
      && r[|r| - 1] == Drive(image)
  {
    var r := Plan(o, entries, image);
    assert r[..4][0] == r[0] && r[..4][1] == r[1] && r[..4][2] == r[2] && r[..4][3] == r[3];
  }

  /** Each switch flag is in the command exactly when its option is truthy. */
  lemma PlanSwitches(o: Options, entries: seq<Entry>, image: string)
    ensures var r := Plan(o, entries, image);
      && (VncDisplay in r <==> Truthy(o.vnc))
      && (Daemonize in r <==> Truthy(o.daemonize))
      && (PidFile(Interpolate(o.pidFile)) in r <==> Truthy(o.pidFile))
      && (forall i :: 0 <= i < |r| && r[i].PidFile? ==> r[i].path == Interpolate(o.pidFile))
  {
    var r, head, mid := Plan(o, entries, image), HeadFlags(o, entries), SwitchFlags(o);
    assert r == head + mid + [Drive(image)];
    SwitchesInFrame(head, mid, Drive(image));
    SwitchMembers(o);
    SwitchesFrom(r, mid, o);
  }

  /** Facts about the switch flags carry over to a list holding the same flags of those ranks. */
  lemma SwitchesFrom(r: seq<Flag>, mid: seq<Flag>, o: Options)
    requires forall f :: 4 <= Rank(f) <= 6 ==> (f in r <==> f in mid)
    requires forall i :: 0 <= i < |r| && 4 <= Rank(r[i]) <= 6 ==> r[i] in mid
    requires VncDisplay in mid <==> Truthy(o.vnc)
    requires Daemonize in mid <==> Truthy(o.daemonize)
    requires PidFile(Interpolate(o.pidFile)) in mid <==> Truthy(o.pidFile)
    requires forall i :: 0 <= i < |mid| && mid[i].PidFile? ==> mid[i].path == Interpolate(o.pidFile)
    ensures VncDisplay in r <==> Truthy(o.vnc)
    ensures Daemonize in r <==> Truthy(o.daemonize)
    ensures PidFile(Interpolate(o.pidFile)) in r <==> Truthy(o.pidFile)
    ensures forall i :: 0 <= i < |r| && r[i].PidFile? ==> r[i].path == Interpolate(o.pidFile)
  {
    assert Rank(VncDisplay) == 4 && Rank(Daemonize) == 5 && Rank(PidFile(Interpolate(o.pidFile))) == 6;
    forall i | 0 <= i < |r| && r[i].PidFile? ensures r[i].path == Interpolate(o.pidFile) {
      assert r[i] in mid;
      var j :| 0 <= j < |mid| && mid[j] == r[i];
    }
  }

  /**
   * Between head flags of ranks up to 3 and a last flag of rank 7, the
   * flags of ranks 4 to 6 are exactly those of the middle part.
   */
  lemma SwitchesInFrame(head: seq<Flag>, mid: seq<Flag>, last: Flag)
    requires forall i :: 0 <= i < |head| ==> Rank(head[i]) <= 3
    requires Rank(last) == 7
    ensures var r := head + mid + [last];
      forall i :: 0 <= i < |r| && 4 <= Rank(r[i]) <= 6 ==> r[i] in mid
    ensures forall f :: 4 <= Rank(f) <= 6 ==> (f in head + mid + [last] <==> f in mid)
  {
    var r := head + mid + [last];
    forall i | 0 <= i < |r| && 4 <= Rank(r[i]) <= 6 ensures r[i] in mid {
      if |head| <= i < |head| + |mid| {
        assert r[i] == mid[i - |head|];
      }
    }
  }

  /** The flags come in a fixed order and none is repeated. */
  lemma PlanOrdered(o: Options, entries: seq<Entry>, image: string)
    ensures var r := Plan(o, entries, image);
      forall i, j :: 0 <= i < j < |r| ==> Rank(r[i]) < Rank(r[j])
  {
    var head, mid := HeadFlags(o, entries), SwitchFlags(o);
    assert Ranked(head);
    FrameRanked(head, mid, Drive(image));
    RankedSorted(Plan(o, entries, image));
  }

  /** Head flags ending at rank 3, switch flags of ranks 4 to 6, and a flag of rank 7 make a ranked list. */
  lemma FrameRanked(head: seq<Flag>, mid: seq<Flag>, last: Flag)
    requires Ranked(head) && |head| > 0 && Rank(head[|head| - 1]) == 3
    requires Ranked(mid) && forall i :: 0 <= i < |mid| ==> 4 <= Rank(mid[i]) <= 6
    requires Rank(last) == 7
    ensures Ranked(head + mid + [last])
  {
    RankedAppend(head, mid);
    var hm := head + mid;
    assert Rank(hm[|hm| - 1]) < 7 by {
      if |mid| > 0 { assert hm[|hm| - 1] == mid[|mid| - 1]; }
      else { assert hm[|hm| - 1] == head[|head| - 1]; }
    }
    RankedAppend(hm, [last]);
  }

  /** A ranked list has its ranks strictly increasing between any two positions. */
  lemma RankedSorted(fs: seq<Flag>)
    requires Ranked(fs)
    ensures forall i, j :: 0 <= i < j < |fs| ==> Rank(fs[i]) < Rank(fs[j])
  {
    forall i, j | 0 <= i < j < |fs| ensures Rank(fs[i]) < Rank(fs[j]) {
      RankedPairwise(fs, i, j);
    }
  }

  /** The text of the four head flags. */
  function HeadText(o: Options, entries: seq<Entry>): string {
    RenderFlag(Memory(Interpolate(o.memory))) + RenderFlag(Cpus(Interpolate(o.cpus)))
    + RenderFlag(Netdev(HostForwards(entries))) + RenderFlag(NetDevice)
  }

  lemma RenderHead(o: Options, entries: seq<Entry>)
    ensures Render(HeadFlags(o, entries)) == HeadText(o, entries)
  {
    var head := HeadFlags(o, entries);
    RenderFour(head[0], head[1], head[2], head[3]);
    assert head == [head[0], head[1], head[2], head[3]];
  }

  /** The rendered plan is the rendered head, switches and drive, in that order. */
  lemma RenderPlan(o: Options, entries: seq<Entry>, image: string)
    ensures Render(Plan(o, entries, image)) == HeadText(o, entries) + Render(SwitchFlags(o)) + RenderFlag(Drive(image))
  {
    var head := HeadFlags(o, entries);
    var mid := SwitchFlags(o);
    assert Plan(o, entries, image) == head + mid + [Drive(image)];
    RenderFrame(head, mid, Drive(image));
    RenderHead(o, entries);
  }

  /** Rendering a head, a middle and a last flag renders each in turn. */
  lemma RenderFrame(head: seq<Flag>, mid: seq<Flag>, last: Flag)
    ensures Render(head + mid + [last]) == Render(head) + Render(mid) + RenderFlag(last)
  {
    RenderAppend(head, mid);
    RenderAppend(head + mid, [last]);
    assert Render([last]) == RenderFlag(last) + Render([]);
  }

  /** Regrouping a concatenation: its leading pieces form a prefix. */
  lemma ConcatPrefix(p: string, m1: string, m2: string, c1: string, c2: string, nh: string, j: string, d: string, sw: string, v: string)
    ensures StartsWith(p + ((m1 + m2) + (c1 + c2) + (nh + j) + d + sw + v), p + m1 + m2 + c1 + c2 + nh)
  {
    assert p + ((m1 + m2) + (c1 + c2) + (nh + j) + d + sw + v) == (p + m1 + m2 + c1 + c2 + nh) + (j + d + sw + v);
  }

  /** The command after the program name, piece by piece. */
  lemma RenderPlanPieces(o: Options, entries: seq<Entry>, image: string)
    ensures Render(Plan(o, entries, image))
         == (" -m " + Interpolate(o.memory)) + (" -smp " + Interpolate(o.cpus))
          + (" -netdev user,id=net0," + Join(HostForwards(entries), ",")) + RenderFlag(NetDevice)
          + Render(SwitchFlags(o)) + RenderFlag(Drive(image))
  {
    RenderPlan(o, entries, image);
  }

  /**
   * The command starts with the program, the memory size and the CPU
   * count, then opens the network device, whose port forwards follow a comma.
   */
  lemma CommandHead(program: string, o: Options, entries: seq<Entry>, image: string)
    ensures var cmd := program + Render(Plan(o, entries, image));
      StartsWith(cmd, program + " -m " + Interpolate(o.memory) + " -smp " + Interpolate(o.cpus) + " -netdev user,id=net0,")
  {
    RenderPlanPieces(o, entries, image);
    ConcatPrefix(program, " -m ", Interpolate(o.memory), " -smp ", Interpolate(o.cpus), " -netdev user,id=net0,",
      Join(HostForwards(entries), ","), RenderFlag(NetDevice), Render(SwitchFlags(o)), RenderFlag(Drive(image)));
  }

  /** The command always ends with the disk image attached as a virtio qcow2 drive. */
  lemma CommandTail(program: string, o: Options, entries: seq<Entry>, image: string)
    ensures EndsWith(program + Render(Plan(o, entries, image)), " -drive file=" + image + ",format=qcow2,if=virtio")
  {
    EndsWithDrive(program, Plan(o, entries, image), image);
  }

  /** A command whose last flag is the drive ends with the drive's text. */
  lemma EndsWithDrive(program: string, fs: seq<Flag>, image: string)
    requires |fs| > 0 && fs[|fs| - 1] == Drive(image)
    ensures EndsWith(program + Render(fs), " -drive file=" + image + ",format=qcow2,if=virtio")
  {
    RenderLast(fs);
    EndsWithExtend(program, Render(fs), RenderFlag(fs[|fs| - 1]));
    DriveText(image);
  }

  lemma DriveText(image: string)
    ensures RenderFlag(Drive(image)) == " -drive file=" + image + ",format=qcow2,if=virtio"
  {
  }

  /** A rendered flag list ends with the text of its last flag. */
  lemma RenderLast(fs: seq<Flag>)
    requires |fs| > 0
    ensures EndsWith(Render(fs), RenderFlag(fs[|fs| - 1]))
  {
    var init, last := fs[..|fs| - 1], fs[|fs| - 1];
    assert fs == init + [last];
    RenderAppend(init, [last]);
    RenderOne(last);
    EndsWithConcat(Render(init), RenderFlag(last));
  }

  /**
   * `buildQemuCommand(qcowPath, options)` with `this.qemuPath` equal to
   * `knownPath`. Fails exactly when the merged `ports` is `undefined` or
   * `null`, where `Object.entries` throws. Otherwise the command is the
   * program followed by the rendered plan; `CommandHead` and `CommandTail`
   * say how it begins and ends.
   */
  function BuildQemuCommand(image: string, overrides: Overrides, knownPath: Option<string>): (r: Result<string>)
    ensures r.Err? <==> Merge(overrides).ports in {Undefined, Null}
    ensures r.Ok? ==>
      var o := Merge(overrides);
      r.value == Program(knownPath) + Render(Plan(o, EntriesOf(o.ports).value, image))
  {
    var o := Merge(overrides);
    match EntriesOf(o.ports)
    case Err(e) => Err(e)
    case Ok(entries) => Ok(Program(knownPath) + Render(Plan(o, entries, image)))
  }

  /** A key printed from a number below 2^32 - 1 is an array index with that value. */
  lemma PrintedKey(n: nat)
    requires n < ArrayIndexBound
    ensures IsArrayIndex(NatToDecimal(n)) && IndexValue(NatToDecimal(n)) == n
  {
  }

  lemma Key8080()
    ensures IsArrayIndex("8080") && IndexValue("8080") == 8080
  {
    assert NatToDecimal(80) == "80";
    assert NatToDecimal(808) == "808";
    assert NatToDecimal(8080) == "8080";
    PrintedKey(8080);
  }

  lemma Key5900()
    ensures IsArrayIndex("5900") && IndexValue("5900") == 5900
  {
    assert NatToDecimal(59) == "59";
    assert NatToDecimal(590) == "590";
    assert NatToDecimal(5900) == "5900";
    PrintedKey(5900);
  }

  lemma Key6900()
    ensures IsArrayIndex("6900") && IndexValue("6900") == 6900
  {
    assert NatToDecimal(69) == "69";
    assert NatToDecimal(690) == "690";
    assert NatToDecimal(6900) == "6900";
    PrintedKey(6900);
  }

  lemma Key2222()
    ensures IsArrayIndex("2222") && IndexValue("2222") == 2222
  {
    assert NatToDecimal(22) == "22";
    assert NatToDecimal(222) == "222";
    assert NatToDecimal(2222) == "2222";
    PrintedKey(2222);
  }

  lemma DefaultKeysAreIndices()
    ensures IndexEntries(DefaultPorts) == DefaultPorts && NamedEntries(DefaultPorts) == []
  {
    Key8080();
    Key5900();
    Key6900();
    Key2222();
    var ps := DefaultPorts;
    assert IndexEntries(ps[3..]) == [ps[3]] && NamedEntries(ps[3..]) == [];
    assert IndexEntries(ps[2..]) == ps[2..] && NamedEntries(ps[2..]) == [];
    assert IndexEntries(ps[1..]) == ps[1..] && NamedEntries(ps[1..]) == [];
  }

  lemma DefaultKeysSorted()
    ensures SortIndices(DefaultPorts) == [DefaultPorts[3], DefaultPorts[1], DefaultPorts[2], DefaultPorts[0]]
  {
    Key8080();
    Key5900();
    Key6900();
    Key2222();
    var a, b, c, d := DefaultPorts[0], DefaultPorts[1], DefaultPorts[2], DefaultPorts[3];
    assert SortIndices(DefaultPorts[3..]) == [d];
    assert SortIndices(DefaultPorts[2..]) == [d, c] by {
      assert InsertAscending(c, [d]) == [d] + InsertAscending(c, []);
    }
    assert SortIndices(DefaultPorts[1..]) == [d, b, c] by {
      assert InsertAscending(b, [d, c]) == [d] + InsertAscending(b, [c]);
    }
    assert InsertAscending(a, [c]) == [c] + InsertAscending(a, []);
    assert InsertAscending(a, [b, c]) == [b] + InsertAscending(a, [c]);
    assert InsertAscending(a, [d, b, c]) == [d] + InsertAscending(a, [b, c]);
  }

  /** Integer-like keys come out in ascending order, so the default forwards are 2222, 5900, 6900, 8080. */
  lemma DefaultPortOrder()
    ensures OwnEntries(DefaultPorts)
         == [("2222", Num(22)), ("5900", Num(5900)), ("6900", Num(6900)), ("8080", Num(8080))]
  {
    DefaultKeysAreIndices();
    DefaultKeysSorted();
  }

  lemma Decimal22()
    ensures IntToDecimal(22) == "22"
  {
    assert NatToDecimal(2) == "2";
  }

  lemma Decimal5900()
    ensures IntToDecimal(5900) == "5900"
  {
    assert NatToDecimal(59) == "59";
    assert NatToDecimal(590) == "590";
  }

  lemma Decimal6900()
    ensures IntToDecimal(6900) == "6900"
  {
    assert NatToDecimal(69) == "69";
    assert NatToDecimal(690) == "690";
  }

  lemma Decimal8080()
    ensures IntToDecimal(8080) == "8080"
  {
    assert NatToDecimal(80) == "80";
    assert NatToDecimal(808) == "808";
  }

  lemma Forward2222()
    ensures HostForward(("2222", Num(22))) == "hostfwd=tcp::2222-:22"
  {
    Decimal22();
  }

  lemma Forward5900()
    ensures HostForward(("5900", Num(5900))) == "hostfwd=tcp::5900-:5900"
  {
    Decimal5900();
  }

  lemma Forward6900()
    ensures HostForward(("6900", Num(6900))) == "hostfwd=tcp::6900-:6900"
  {
    Decimal6900();
  }

  lemma Forward8080()
    ensures HostForward(("8080", Num(8080))) == "hostfwd=tcp::8080-:8080"
  {
    Decimal8080();
  }

  lemma HostForwardsFour(a: Entry, b: Entry, c: Entry, d: Entry)
    ensures HostForwards([a, b, c, d]) == [HostForward(a), HostForward(b), HostForward(c), HostForward(d)]
  {
  }

  lemma DefaultForwardTexts()
    ensures HostForwards(OwnEntries(DefaultPorts))
         == ["hostfwd=tcp::2222-:22", "hostfwd=tcp::5900-:5900", "hostfwd=tcp::6900-:6900", "hostfwd=tcp::8080-:8080"]
  {
    DefaultPortOrder();
    HostForwardsFour(("2222", Num(22)), ("5900", Num(5900)), ("6900", Num(6900)), ("8080", Num(8080)));
    Forward2222();
    Forward5900();
    Forward6900();
    Forward8080();
  }

  lemma JoinTwo(c: string, d: string)
    ensures Join([c, d], ",") == c + "," + d
  {
    assert [c, d][1..] == [d];
  }

  lemma JoinThree(b: string, c: string, d: string)
    ensures Join([b, c, d], ",") == b + "," + c + "," + d
  {
    assert [b, c, d][1..] == [c, d];
    JoinTwo(c, d);
  }

  lemma JoinFour(a: string, b: string, c: string, d: string)
    ensures Join([a, b, c, d], ",") == a + "," + b + "," + c + "," + d
  {
    assert [a, b, c, d][1..] == [b, c, d];
    JoinThree(b, c, d);
  }

  lemma DefaultForwards()
    ensures Join(HostForwards(OwnEntries(DefaultPorts)), ",")
         == "hostfwd=tcp::2222-:22" + "," + "hostfwd=tcp::5900-:5900" + "," + "hostfwd=tcp::6900-:6900" + "," + "hostfwd=tcp::8080-:8080"
  {
    DefaultForwardTexts();
    JoinFour("hostfwd=tcp::2222-:22", "hostfwd=tcp::5900-:5900", "hostfwd=tcp::6900-:6900", "hostfwd=tcp::8080-:8080");
  }

  lemma DefaultSwitchFlags()
    ensures SwitchFlags(DefaultOptions) == [VncDisplay, Daemonize, PidFile("/tmp/desqemu-vm.pid")]
  {
  }

  lemma RenderOne(f: Flag)
    ensures Render([f]) == RenderFlag(f)
  {
    assert [f][1..] == [];
    assert Render([f]) == RenderFlag(f) + Render([]);
  }

  lemma RenderTwo(f: Flag, g: Flag)
    ensures Render([f, g]) == RenderFlag(f) + RenderFlag(g)
  {
    assert [f, g][1..] == [g];
    assert Render([f, g]) == RenderFlag(f) + Render([g]);
    RenderOne(g);
  }

  lemma RenderThree(e: Flag, f: Flag, g: Flag)
    ensures Render([e, f, g]) == RenderFlag(e) + RenderFlag(f) + RenderFlag(g)
  {
    assert [e, f, g][1..] == [f, g];
    assert Render([e, f, g]) == RenderFlag(e) + Render([f, g]);
    RenderTwo(f, g);
    Regroup(RenderFlag(e), RenderFlag(f), RenderFlag(g));
  }

  lemma RenderFour(e: Flag, f: Flag, g: Flag, h: Flag)
    ensures Render([e, f, g, h]) == RenderFlag(e) + RenderFlag(f) + RenderFlag(g) + RenderFlag(h)
  {
    assert [e, f, g, h][1..] == [f, g, h];
    assert Render([e, f, g, h]) == RenderFlag(e) + Render([f, g, h]);
    RenderThree(f, g, h);
    Regroup(RenderFlag(e), RenderFlag(f) + RenderFlag(g), RenderFlag(h));
    Regroup(RenderFlag(e), RenderFlag(f), RenderFlag(g));
  }

  /** Concatenation is associative. */
  lemma Regroup(a: string, b: string, c: string)
    ensures a + (b + c) == a + b + c
  {
  }

  lemma DefaultSwitches()
    ensures Render(SwitchFlags(DefaultOptions)) == (" -vnc :0,password" + " -daemonize" + (" -pidfile " + "/tmp/desqemu-vm.pid"))
  {
    DefaultSwitchFlags();
    RenderThree(VncDisplay, Daemonize, PidFile("/tmp/desqemu-vm.pid"));
  }

  /**
   * The command built with no overrides and no known QEMU path: 1G of
   * memory, two CPUs, the four default forwards in ascending host-port
   * order, the password-protected VNC display, daemonized with the default
   * pid file.
   */
  lemma DefaultCommand(image: string)
    ensures BuildQemuCommand(image, NoOverrides, None)
         == Ok("qemu-system-x86_64"
               + ((" -m " + "1G") + (" -smp " + "2")
                 + (" -netdev user,id=net0,"
                    + ("hostfwd=tcp::2222-:22" + "," + "hostfwd=tcp::5900-:5900" + "," + "hostfwd=tcp::6900-:6900" + "," + "hostfwd=tcp::8080-:8080"))
                 + " -device e1000,netdev=net0"
                 + (" -vnc :0,password" + " -daemonize" + (" -pidfile " + "/tmp/desqemu-vm.pid"))
                 + (" -drive file=" + image + ",format=qcow2,if=virtio")))
  {
    DefaultBuild(image);
    DefaultRender(image);
  }

  lemma DefaultBuild(image: string)
    ensures BuildQemuCommand(image, NoOverrides, None)
         == Ok(DefaultProgram + Render(Plan(DefaultOptions, OwnEntries(DefaultPorts), image)))
  {
    assert Merge(NoOverrides) == DefaultOptions;
    assert EntriesOf(DefaultOptions.ports) == Ok(OwnEntries(DefaultPorts));
  }

  lemma DefaultRender(image: string)
    ensures Render(Plan(DefaultOptions, OwnEntries(DefaultPorts), image))
         == (" -m " + "1G") + (" -smp " + "2")
                 + (" -netdev user,id=net0,"
                    + ("hostfwd=tcp::2222-:22" + "," + "hostfwd=tcp::5900-:5900" + "," + "hostfwd=tcp::6900-:6900" + "," + "hostfwd=tcp::8080-:8080"))
                 + " -device e1000,netdev=net0"
                 + (" -vnc :0,password" + " -daemonize" + (" -pidfile " + "/tmp/desqemu-vm.pid"))
                 + (" -drive file=" + image + ",format=qcow2,if=virtio")
  {
    DefaultForwards();
    DefaultSwitches();
    DefaultScalars();
    RenderPlanWith(DefaultOptions, OwnEntries(DefaultPorts), image, "1G", "2",
      "hostfwd=tcp::2222-:22" + "," + "hostfwd=tcp::5900-:5900" + "," + "hostfwd=tcp::6900-:6900" + "," + "hostfwd=tcp::8080-:8080",
      (" -vnc :0,password" + " -daemonize" + (" -pidfile " + "/tmp/desqemu-vm.pid")));
  }

  lemma DefaultScalars()
    ensures Interpolate(DefaultOptions.memory) == "1G" && Interpolate(DefaultOptions.cpus) == "2"
  {
    assert NatToDecimal(2) == "2";
  }

  /** The rendered plan, given the text of each variable piece. */
  lemma RenderPlanWith(o: Options, entries: seq<Entry>, image: string, mem: string, cpus: string, fw: string, sw: string)
    requires Interpolate(o.memory) == mem && Interpolate(o.cpus) == cpus
    requires Join(HostForwards(entries), ",") == fw && Render(SwitchFlags(o)) == sw
    ensures Render(Plan(o, entries, image))
         == (" -m " + mem) + (" -smp " + cpus) + (" -netdev user,id=net0," + fw)
          + " -device e1000,netdev=net0" + sw + (" -drive file=" + image + ",format=qcow2,if=virtio")
  {
    RenderPlanPieces(o, entries, image);
  }

  /**
   * An empty `ports` object leaves the network device with no forwards:
   * the `user,id=net0,` option list ends in a bare comma.
   */
  lemma EmptyPortsTrailingComma(image: string, overrides: Overrides, knownPath: Option<string>)
    requires Merge(overrides).ports == Obj([])
    ensures var o := Merge(overrides);
      BuildQemuCommand(image, overrides, knownPath)
      == Ok(Program(knownPath)
            + ((" -m " + Interpolate(o.memory)) + (" -smp " + Interpolate(o.cpus))
               + (" -netdev user,id=net0," + "") + " -device e1000,netdev=net0"
               + Render(SwitchFlags(o)) + (" -drive file=" + image + ",format=qcow2,if=virtio")))
  {
    var o := Merge(overrides);
    assert OwnEntries([]) == [];
    assert EntriesOf(o.ports) == Ok([]);
    RenderNoForwards(o, image);
  }

  /** Without entries the network backend's option list is left with its bare comma. */
  lemma RenderNoForwards(o: Options, image: string)
    ensures Render(Plan(o, [], image))
         == (" -m " + Interpolate(o.memory)) + (" -smp " + Interpolate(o.cpus))
          + (" -netdev user,id=net0," + "") + " -device e1000,netdev=net0"
          + Render(SwitchFlags(o)) + (" -drive file=" + image + ",format=qcow2,if=virtio")
  {
    RenderPlanPieces(o, [], image);
    assert HostForwards([]) == [];
    DriveText(image);
  }

  /** A supplied `ports` object replaces the default map entirely: its entries alone become the forwards. */
  lemma SuppliedPortsReplaceDefaults(image: string, overrides: Overrides, knownPath: Option<string>, props: seq<Entry>)
    requires overrides.ports == Some(Obj(props))
    ensures var o := Merge(overrides);
      && BuildQemuCommand(image, overrides, knownPath) == Ok(Program(knownPath) + Render(Plan(o, OwnEntries(props), image)))
      && Plan(o, OwnEntries(props), image)[2] == Netdev(HostForwards(OwnEntries(props)))
  {
    PlanFrame(Merge(overrides), OwnEntries(props), image);
  }

  /**
   * The merge is shallow: an override holding `undefined` still replaces
   * the default, so `ports: undefined` makes `Object.entries` throw.
   */
  lemma UndefinedPortsThrow(image: string, knownPath: Option<string>)
    ensures BuildQemuCommand(image, NoOverrides.(ports := Some(Undefined)), knownPath) == Err(NullishError)
  {
  }
}
