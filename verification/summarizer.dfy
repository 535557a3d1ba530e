/** The detection summariser (`summarize_detections`): one text block per
    detection record, numbered from 1 and joined by newlines. */
module Summarizer {
  import opened Wrappers
  import opened Text
  import opened Json

  /** Returned instead of a summary when the document is not a non-empty list. */
  const NoDataMessage: string := "No detection data found in JSON file."
  /** Put in front of the description of a failure. */
  const ErrorPrefix: string := "Error summarizing data: "
  /** Rendered for every field the record does not carry. */
  const Unknown: string := "Unknown"
  /** Command lines longer than this are cut to this many characters ... */
  const CmdlineLimit: nat := 100
  /** ... followed by this marker. */
  const Ellipsis: string := "..."
  /** At most this many network accesses are rendered per detection. */
  const NetworkCap: nat := 3
  /** Put in front of every rendered IOC and network access. */
  const ItemSeparator: string := "\n    - "

  /** Why Python would raise while rendering a record. */
  datatype Fault =
    | NotAMapping(key: string)     // `.get` on something that is not a dict
    | NotIterable(key: string)     // iterating or slicing something that allows neither
    | NoLength(key: string)        // `len` of a number, boolean or null
    | CannotTruncate(key: string)  // `[:100] + '...'` on a long list or dict

  /** The failure of a whole summary: the 0-based position of the first bad record. */
  datatype SummaryError = SummaryError(index: nat, fault: Fault)

  /** What the summary shows of a parent or grandparent process. */
  datatype Lineage = Lineage(filename: string, cmdline: string, user: string)

  /** Everything one block shows, already rendered to text. */
  datatype DetectionView = DetectionView(
    hostname: string, deviceId: string, osVersion: string, localIp: string, externalIp: string,
    severity: string, name: string, tactic: string, technique: string, timestamp: string,
    filename: string, filepath: string, sha256: string, cmdline: string, user: string,
    parent: Lineage, grandparent: Lineage,
    disposition: string, processBlocked: bool, quarantineFile: bool,
    iocs: seq<string>, network: seq<string>)

  // ---------------------------------------------------------------------------
  // Field access

  /** `fields.get(key, fallback)` placed in an f-string. */
  function FieldOr(fields: Fields, key: string, fallback: string): string {
    match Lookup(fields, key)
    case Some(v) => Show(v)
    case None => fallback
  }

  /** `fields.get(key, 'Unknown')` placed in an f-string. */
  function Field(fields: Fields, key: string): string {
    FieldOr(fields, key, Unknown)
  }

  /** The members of a sub-object, or none when it is absent or not an object. */
  function SectionFields(fields: Fields, key: string): Fields {
    match Lookup(fields, key)
    case Some(Obj(inner)) => inner
    case _ => []
  }

  /** `record.get(key, {})`, which the caller then calls `.get` on: an absent key
      gives the empty dict, an object gives its members, anything else has no `.get`. */
  function Section(fields: Fields, key: string): (r: Result<Fields, Fault>)
    ensures Lookup(fields, key).None? ==> r == Success([])
    ensures forall inner :: Lookup(fields, key) == Some(Obj(inner)) ==> r == Success(inner)
    ensures Lookup(fields, key).Some? && !Lookup(fields, key).value.Obj? ==> r == Failure(NotAMapping(key))
  {
    if MappingOrAbsent(fields, key) then Success(SectionFields(fields, key)) else Failure(NotAMapping(key))
  }

  /** What a `.get(key, 'Unknown')` placed in an f-string shows: `str()` of the
      member when there is one, `Unknown` otherwise. */
  predicate ShownAs(fields: Fields, key: string, shown: string) {
    && (Lookup(fields, key).None? ==> shown == Unknown)
    && (Lookup(fields, key).Some? ==> shown == Show(Lookup(fields, key).value))
  }

  // ---------------------------------------------------------------------------
  // Command lines

  /** The command-line cut: at most 100 characters kept, and the marker added
      exactly when something was cut. */
  function Truncate(s: string): (r: string)
    ensures |r| == if |s| <= CmdlineLimit then |s| else CmdlineLimit + |Ellipsis|
    ensures r[..Min(|s|, CmdlineLimit)] == s[..Min(|s|, CmdlineLimit)]
    ensures |s| > CmdlineLimit ==> r[CmdlineLimit..] == Ellipsis
  {
    if |s| > CmdlineLimit then s[..CmdlineLimit] + Ellipsis else s
  }

  /** Cutting an already cut command line changes nothing. */
  lemma TruncateIdempotent(s: string)
    ensures Truncate(Truncate(s)) == Truncate(s)
  {
    if |s| > CmdlineLimit {
      var r := Truncate(s);
      assert r[..CmdlineLimit] + Ellipsis == r;
    }
  }

  /** The rendered `cmdline` of a record or sub-record: `len(...)` decides
      whether to cut, so strings are cut, short lists and dicts are shown whole,
      long ones cannot be cut, and scalars have no length at all. */
  function Cmdline(fields: Fields): (r: Result<string, Fault>)
    ensures r.Success? <==> CmdlineOk(fields)
    ensures Lookup(fields, "cmdline").None? ==> r == Success(Unknown)
    ensures forall s :: Lookup(fields, "cmdline") == Some(Str(s)) ==> r == Success(Truncate(s))
  {
    match Lookup(fields, "cmdline")
    case None => Success(Unknown)
    case Some(Str(s)) => Success(Truncate(s))
    case Some(Arr(items)) =>
      if |items| > CmdlineLimit then Failure(CannotTruncate("cmdline")) else Success(Show(Arr(items)))
    case Some(Obj(members)) =>
      if |members| > CmdlineLimit then Failure(CannotTruncate("cmdline")) else Success(Show(Obj(members)))
    case Some(_) => Failure(NoLength("cmdline"))
  }

  // ---------------------------------------------------------------------------
  // IOC and network lists

  function IocLine(ioc: Fields): string {
    "Type: " + Field(ioc, "ioc_type") + ", Value: " + Field(ioc, "ioc_value")
    + ", Source: " + Field(ioc, "ioc_source")
  }

  function NetworkLine(net: Fields): string {
    "Protocol: " + Field(net, "protocol")
    + ", Local: " + Field(net, "local_address") + ":" + Field(net, "local_port")
    + ", Remote: " + Field(net, "remote_address") + ":" + Field(net, "remote_port")
    + ", Direction: " + Field(net, "connection_direction")
  }

  predicate AllMappings(xs: seq<Value>) {
    forall i :: 0 <= i < |xs| ==> xs[i].Obj?
  }

  /** Renders every element with `line`, in order; fails on the first element
      that is not an object. */
  function Entries(xs: seq<Value>, line: Fields -> string, key: string): (r: Result<seq<string>, Fault>)
    ensures r.Success? <==> AllMappings(xs)
    ensures r.Success? ==>
              |r.value| == |xs| && forall i :: 0 <= i < |xs| ==> r.value[i] == line(xs[i].fields)
    ensures r.Failure? ==> r.error == NotAMapping(key)
    decreases |xs|
  {
    if |xs| == 0 then Success([])
    else if !xs[0].Obj? then Failure(NotAMapping(key))
    else
      var rest :- Entries(xs[1..], line, key);
      assert forall i :: 1 <= i < |xs| ==> xs[1..][i - 1] == xs[i];
      Success([line(xs[0].fields)] + rest)
  }

  /** The rendered `ioc_context` list. Iterating an empty string or an empty
      dict yields nothing; a non-empty one yields strings, which have no `.get`. */
  function Iocs(fields: Fields): (r: Result<seq<string>, Fault>)
    ensures r.Success? <==> IocsOk(fields)
    ensures r.Success? ==>
              match Lookup(fields, "ioc_context")
              case Some(Arr(xs)) =>
                |r.value| == |xs| && forall i :: 0 <= i < |xs| ==> r.value[i] == IocLine(xs[i].fields)
              case _ => r.value == []
  {
    match Lookup(fields, "ioc_context")
    case None => Success([])
    case Some(Arr(items)) => Entries(items, IocLine, "ioc_context")
    case Some(Str(s)) => if s == [] then Success([]) else Failure(NotAMapping("ioc_context"))
    case Some(Obj(members)) => if members == [] then Success([]) else Failure(NotAMapping("ioc_context"))
    case Some(_) => Failure(NotIterable("ioc_context"))
  }

  /** The rendered `network_accesses` list: only the slice `[:3]` is looked at.
      A dict cannot be sliced at all. */
  function Network(fields: Fields): (r: Result<seq<string>, Fault>)
    ensures r.Success? <==> NetworkOk(fields)
    ensures r.Success? ==>
              match Lookup(fields, "network_accesses")
              case Some(Arr(xs)) =>
                |r.value| == Min(NetworkCap, |xs|) &&
                forall i :: 0 <= i < |r.value| ==> r.value[i] == NetworkLine(xs[i].fields)
              case _ => r.value == []
  {
    match Lookup(fields, "network_accesses")
    case None => Success([])
    case Some(Arr(items)) => Entries(items[..Min(NetworkCap, |items|)], NetworkLine, "network_accesses")
    case Some(Str(s)) => if s == [] then Success([]) else Failure(NotAMapping("network_accesses"))
    case Some(_) => Failure(NotIterable("network_accesses"))
  }

  /** A list section's body: `None`, or every entry preceded by the separator. */
  function ListBody(items: seq<string>): string {
    if |items| == 0 then "None" else ItemSeparator + Join(ItemSeparator, items)
  }

  /** A list section body is `None` exactly for an empty list, and otherwise is
      the entries in order, each introduced by the separator. */
  lemma {:induction false} ListBodyEntries(items: seq<string>)
    ensures ListBody(items) == "None" <==> |items| == 0
    ensures |items| > 0 ==>
              ListBody(items) == Concat(seq(|items|, i requires 0 <= i < |items| => ItemSeparator + items[i]))
  {
    if |items| > 0 {
      assert ListBody(items)[0] == '\n';
      JoinAsConcat(items);
    }
  }

  lemma {:induction false} JoinAsConcat(items: seq<string>)
    requires |items| > 0
    ensures ItemSeparator + Join(ItemSeparator, items)
            == Concat(seq(|items|, i requires 0 <= i < |items| => ItemSeparator + items[i]))
  {
    var pieces := seq(|items|, i requires 0 <= i < |items| => ItemSeparator + items[i]);
    if |items| == 1 {
      assert Concat(pieces[1..]) == [];
    } else {
      JoinAsConcat(items[1..]);
      assert pieces[1..] == seq(|items[1..]|, i requires 0 <= i < |items[1..]| => ItemSeparator + items[1..][i]);
    }
  }

  // ---------------------------------------------------------------------------
  // One record

  predicate MappingOrAbsent(fields: Fields, key: string) {
    Lookup(fields, key).None? || Lookup(fields, key).value.Obj?
  }

  predicate CmdlineOk(fields: Fields) {
    match Lookup(fields, "cmdline")
    case None => true
    case Some(v) =>
      v.Str? || (v.Arr? && |v.items| <= CmdlineLimit) || (v.Obj? && |v.fields| <= CmdlineLimit)
  }

  predicate IocsOk(fields: Fields) {
    match Lookup(fields, "ioc_context")
    case None => true
    case Some(v) => (v.Arr? && AllMappings(v.items)) || v == Str([]) || v == Obj([])
  }

  predicate NetworkOk(fields: Fields) {
    match Lookup(fields, "network_accesses")
    case None => true
    case Some(v) => (v.Arr? && AllMappings(v.items[..Min(NetworkCap, |v.items|)])) || v == Str([])
  }

  /** The shape a record must have for Python to render it without raising. */
  predicate WellShaped(d: Value) {
    && d.Obj?
    && MappingOrAbsent(d.fields, "device")
    && CmdlineOk(d.fields)
    && MappingOrAbsent(d.fields, "parent_details")
    && CmdlineOk(SectionFields(d.fields, "parent_details"))
    && MappingOrAbsent(d.fields, "grandparent_details")
    && CmdlineOk(SectionFields(d.fields, "grandparent_details"))
    && IocsOk(d.fields)
    && NetworkOk(d.fields)
    && MappingOrAbsent(d.fields, "pattern_disposition_details")
  }

  /** Python's truthiness of an optional flag, absent meaning `False`. */
  predicate Flag(fields: Fields, key: string) {
    Truthy(Get(fields, key, Bool(false)))
  }

  /** Reads one detection record, with the fallbacks, cuts and caps of the summary. */
  function Extract(d: Value): (r: Result<DetectionView, Fault>)
    ensures r.Success? <==> WellShaped(d)
    ensures !d.Obj? ==> r == Failure(NotAMapping("detection"))
    ensures r.Success? ==>
              var fs := d.fields;
              var v := r.value;
              && v.name == (if Lookup(fs, "display_name").Some? then Show(Lookup(fs, "display_name").value)
                            else if Lookup(fs, "description").Some? then Show(Lookup(fs, "description").value)
                            else Unknown)
              && v.timestamp == (if Lookup(fs, "context_timestamp").Some? then Show(Lookup(fs, "context_timestamp").value)
                                 else if Lookup(fs, "timestamp").Some? then Show(Lookup(fs, "timestamp").value)
                                 else Unknown)
              && v.parent.user == Unknown
              && v.grandparent.user == Unknown
    ensures r.Success? ==>
              var fs := d.fields;
              var v := r.value;
              var details := SectionFields(fs, "pattern_disposition_details");
              && (v.processBlocked <==> Flag(details, "kill_process") || Flag(details, "operation_blocked"))
              && (v.quarantineFile <==> Flag(details, "quarantine_file"))
  {
    if !d.Obj? then Failure(NotAMapping("detection"))
    else
      var fs := d.fields;
      var device :- Section(fs, "device");
      var cmdline :- Cmdline(fs);
      var parent :- Section(fs, "parent_details");
      var parentCmdline :- Cmdline(parent);
      var grandparent :- Section(fs, "grandparent_details");
      var grandparentCmdline :- Cmdline(grandparent);
      var iocs :- Iocs(fs);
      var network :- Network(fs);
      var details :- Section(fs, "pattern_disposition_details");
      Success(DetectionView(
        Field(device, "hostname"), Field(device, "device_id"), Field(device, "os_version"),
        Field(device, "local_ip"), Field(device, "external_ip"),
        Field(fs, "severity_name"), FieldOr(fs, "display_name", Field(fs, "description")),
        Field(fs, "tactic"), Field(fs, "technique"),
        FieldOr(fs, "context_timestamp", Field(fs, "timestamp")),
        Field(fs, "filename"), Field(fs, "filepath"), Field(fs, "sha256"), cmdline, Field(fs, "user_name"),
        Lineage(Field(parent, "filename"), parentCmdline, Unknown),
        Lineage(Field(grandparent, "filename"), grandparentCmdline, Unknown),
        Field(fs, "pattern_disposition_description"),
        Flag(details, "kill_process") || Flag(details, "operation_blocked"),
        Flag(details, "quarantine_file"),
        iocs, network))
  }

  /** The device fields show `str()` of the members of `device`, or `Unknown`
      for each member it lacks. */
  lemma ExtractDeviceFields(d: Value)
    requires Extract(d).Success?
    ensures var v, device := Extract(d).value, SectionFields(d.fields, "device");
            && ShownAs(device, "hostname", v.hostname)
            && ShownAs(device, "device_id", v.deviceId)
            && ShownAs(device, "os_version", v.osVersion)
            && ShownAs(device, "local_ip", v.localIp)
            && ShownAs(device, "external_ip", v.externalIp)
  {
    assert Section(d.fields, "device").Success?;
  }

  /** The event, process and disposition fields show `str()` of the record's own
      members, or `Unknown` for each member it lacks. */
  lemma ExtractRecordFields(d: Value)
    requires Extract(d).Success?
    ensures var fs, v := d.fields, Extract(d).value;
            && ShownAs(fs, "severity_name", v.severity)
            && ShownAs(fs, "tactic", v.tactic)
            && ShownAs(fs, "technique", v.technique)
            && ShownAs(fs, "filename", v.filename)
            && ShownAs(fs, "filepath", v.filepath)
            && ShownAs(fs, "sha256", v.sha256)
            && ShownAs(fs, "user_name", v.user)
            && ShownAs(fs, "pattern_disposition_description", v.disposition)
  {
  }

  /** The parent's and grandparent's file names come from their own sections. */
  lemma ExtractLineageFields(d: Value)
    requires Extract(d).Success?
    ensures var fs, v := d.fields, Extract(d).value;
            && ShownAs(SectionFields(fs, "parent_details"), "filename", v.parent.filename)
            && ShownAs(SectionFields(fs, "grandparent_details"), "filename", v.grandparent.filename)
  {
    assert Section(d.fields, "parent_details").Success?;
    assert Section(d.fields, "grandparent_details").Success?;
  }

  /** Every command line shown is the cut of the `cmdline` string it came from,
      for the record itself, its parent and its grandparent alike. */
  lemma ExtractCommandLines(d: Value)
    requires Extract(d).Success?
    ensures forall s :: Lookup(d.fields, "cmdline") == Some(Str(s)) ==>
                          Extract(d).value.cmdline == Truncate(s)
    ensures forall s :: Lookup(SectionFields(d.fields, "parent_details"), "cmdline") == Some(Str(s)) ==>
                          Extract(d).value.parent.cmdline == Truncate(s)
    ensures forall s :: Lookup(SectionFields(d.fields, "grandparent_details"), "cmdline") == Some(Str(s)) ==>
                          Extract(d).value.grandparent.cmdline == Truncate(s)
    ensures Lookup(d.fields, "cmdline").None? ==> Extract(d).value.cmdline == Unknown
    ensures Lookup(SectionFields(d.fields, "parent_details"), "cmdline").None? ==>
              Extract(d).value.parent.cmdline == Unknown
    ensures Lookup(SectionFields(d.fields, "grandparent_details"), "cmdline").None? ==>
              Extract(d).value.grandparent.cmdline == Unknown
  {
    assert Cmdline(d.fields).Success?;
    assert Cmdline(SectionFields(d.fields, "parent_details")).Success?;
    assert Cmdline(SectionFields(d.fields, "grandparent_details")).Success?;
  }

  /** Every IOC is shown, in order; of the network accesses only the first three. */
  lemma ExtractLists(d: Value)
    requires Extract(d).Success?
    ensures match Lookup(d.fields, "ioc_context")
            case Some(Arr(xs)) =>
              |Extract(d).value.iocs| == |xs| &&
              forall i :: 0 <= i < |xs| ==> Extract(d).value.iocs[i] == IocLine(xs[i].fields)
            case _ => Extract(d).value.iocs == []
    ensures match Lookup(d.fields, "network_accesses")
            case Some(Arr(xs)) =>
              |Extract(d).value.network| == Min(NetworkCap, |xs|) &&
              forall i :: 0 <= i < |Extract(d).value.network| ==>
                            Extract(d).value.network[i] == NetworkLine(xs[i].fields)
            case _ => Extract(d).value.network == []
  {
    assert Iocs(d.fields).Success?;
    assert Network(d.fields).Success?;
  }

  /** A record with no members at all renders every field as `Unknown`, both
      remediation flags as `No` and both lists as empty. */
  lemma EmptyRecordDefaults()
    ensures Extract(Obj([])) == Success(DetectionView(
              Unknown, Unknown, Unknown, Unknown, Unknown,
              Unknown, Unknown, Unknown, Unknown, Unknown,
              Unknown, Unknown, Unknown, Unknown, Unknown,
              Lineage(Unknown, Unknown, Unknown), Lineage(Unknown, Unknown, Unknown),
              Unknown, false, false, [], []))
  {
  }

  /** `fields + [(key, v)]`: the record with `key` set to `v` (the later member wins). */
  function With(fields: Fields, key: string, v: Value): (r: Fields)
    ensures Lookup(r, key) == Some(v)
    ensures forall k :: k != key ==> Lookup(r, k) == Lookup(fields, k)
  {
    var r := fields + [(key, v)];
    assert r[..|r| - 1] == fields;
    r
  }

  /** Network accesses after the third never influence the rendered list, not
      even when they are malformed. */
  lemma NetworkBeyondCapIgnored(fields: Fields, xs: seq<Value>, ys: seq<Value>)
    requires |xs| >= NetworkCap && |ys| >= NetworkCap && xs[..NetworkCap] == ys[..NetworkCap]
    ensures Network(With(fields, "network_accesses", Arr(xs)))
            == Network(With(fields, "network_accesses", Arr(ys)))
  {
  }

  // ---------------------------------------------------------------------------
  // One block

  /** `Detection k:` and its line break, the first line of block `k`. */
  function Header(k: nat): string {
    "Detection " + NatToString(k) + ":\n"
  }

  function YesNo(b: bool): string {
    if b then "Yes" else "No"
  }

  /** The f-string template for detection number `k`, as its lines (each with
      its line break). A non-empty list body already begins with the item
      separator, so it renders as `    - `, a line break, and then the entries. */
  function BlockLines(k: nat, v: DetectionView): seq<string> {
    [ Header(k),
      "  Device:\n",
      "    Hostname: " + v.hostname + "\n",
      "    Device ID: " + v.deviceId + "\n",
      "    OS Version: " + v.osVersion + "\n",
      "    Local IP: " + v.localIp + "\n",
      "    External IP: " + v.externalIp + "\n",
      "  Event Details:\n",
      "    Severity: " + v.severity + "\n",
      "    Detection Name: " + v.name + "\n",
      "    Tactic: " + v.tactic + "\n",
      "    Technique: " + v.technique + "\n",
      "    Timestamp: " + v.timestamp + "\n",
      "  Suspect File/Process:\n",
      "    Filename: " + v.filename + "\n",
      "    Filepath: " + v.filepath + "\n",
      "    SHA256: " + v.sha256 + "\n",
      "    CMDline: " + v.cmdline + "\n",
      "    User: " + v.user + "\n",
      "  Parent Process:\n",
      "    Filename: " + v.parent.filename + "\n",
      "    CMDline: " + v.parent.cmdline + "\n",
      "    User: " + v.parent.user + "\n",
      "  Grandparent Process:\n",
      "    Filename: " + v.grandparent.filename + "\n",
      "    CMDline: " + v.grandparent.cmdline + "\n",
      "    User: " + v.grandparent.user + "\n",
      "  Disposition: " + v.disposition + "\n",
      "  Remediation Actions:\n",
      "    Process Blocked: " + YesNo(v.processBlocked) + "\n",
      "    Quarantine File: " + YesNo(v.quarantineFile) + "\n",
      "  IOCs:\n    - " + ListBody(v.iocs) + "\n",
      "  Network Accesses:\n    - " + ListBody(v.network) + "\n" ]
  }

  /** The text of block `k`. */
  function BlockText(k: nat, v: DetectionView): string {
    Concat(BlockLines(k, v))
  }

  /** Block `k` opens with its header and ends with a line break. */
  lemma BlockFrame(k: nat, v: DetectionView)
    ensures |Header(k)| <= |BlockText(k, v)|
    ensures BlockText(k, v)[..|Header(k)|] == Header(k)
    ensures BlockText(k, v)[|BlockText(k, v)| - 1] == '\n'
  {
    var lines := BlockLines(k, v);
    var n := |lines|;
    assert Concat(lines) == lines[0] + Concat(lines[1..]);
    ConcatAppend(lines[..n - 1], [lines[n - 1]]);
    assert lines[..n - 1] + [lines[n - 1]] == lines;
    assert Concat([lines[n - 1]]) == lines[n - 1] + Concat([]);
  }

  /** Each value of the view appears in block `k` on its own labelled line;
      an empty list shows as `- None`. */
  lemma BlockShowsFields(k: nat, v: DetectionView)
    ensures IsInfix("    Hostname: " + v.hostname + "\n", BlockText(k, v))
    ensures IsInfix("    Severity: " + v.severity + "\n", BlockText(k, v))
    ensures IsInfix("    CMDline: " + v.cmdline + "\n", BlockText(k, v))
    ensures v.iocs == [] ==> IsInfix("  IOCs:\n    - None\n", BlockText(k, v))
    ensures v.network == [] ==> IsInfix("  Network Accesses:\n    - None\n", BlockText(k, v))
  {
    var lines := BlockLines(k, v);
    assert lines[2] == "    Hostname: " + v.hostname + "\n";
    assert lines[8] == "    Severity: " + v.severity + "\n";
    assert lines[17] == "    CMDline: " + v.cmdline + "\n";
    LineShown(k, v, 2);
    LineShown(k, v, 8);
    LineShown(k, v, 17);
    if v.iocs == [] {
      assert lines[31] == "  IOCs:\n    - None\n";
      LineShown(k, v, 31);
    }
    if v.network == [] {
      assert lines[32] == "  Network Accesses:\n    - None\n";
      LineShown(k, v, 32);
    }
  }

  /** Each list section is its title, the item marker, and the list body; a
      non-empty body starts with a marker of its own, so the first entry sits
      after an empty bullet. */
  lemma BlockShowsLists(k: nat, v: DetectionView)
    ensures IsInfix("  IOCs:\n    - " + ListBody(v.iocs) + "\n", BlockText(k, v))
    ensures IsInfix("  Network Accesses:\n    - " + ListBody(v.network) + "\n", BlockText(k, v))
  {
    var lines := BlockLines(k, v);
    assert lines[31] == "  IOCs:\n    - " + ListBody(v.iocs) + "\n";
    assert lines[32] == "  Network Accesses:\n    - " + ListBody(v.network) + "\n";
    LineShown(k, v, 31);
    LineShown(k, v, 32);
  }

  lemma LineShown(k: nat, v: DetectionView, j: nat)
    requires j < |BlockLines(k, v)|
    ensures IsInfix(BlockLines(k, v)[j], BlockText(k, v))
  {
    ConcatContainsPiece(BlockLines(k, v), j);
  }

  /** The number in a header reads back as the block number, so no two blocks
      share a header. */
  lemma HeaderNumber(k: nat)
    ensures |Header(k)| == |NatToString(k)| + 12
    ensures Header(k)[10..|Header(k)| - 2] == NatToString(k)
    ensures forall i :: 10 <= i < |Header(k)| - 2 ==> IsDigit(Header(k)[i])
    ensures DigitsValue(Header(k)[10..|Header(k)| - 2]) == k
  {
    DigitsValueOfNatToString(k);
  }

  // ---------------------------------------------------------------------------
  // The whole summary

  /** Record `d` rendered as block number `k`: its header first, a line break last. */
  function RenderRecord(k: nat, d: Value): (r: Result<string, Fault>)
    ensures r.Success? <==> WellShaped(d)
    ensures r.Failure? ==> r == Failure(Extract(d).error)
    ensures r.Success? ==> Framed(k, r.value)
  {
    var view :- Extract(d);
    BlockFrame(k, view);
    Success(BlockText(k, view))
  }

  /** The block of a record shows the hostname of the record's own device. */
  lemma RecordShowsHostname(k: nat, d: Value)
    requires WellShaped(d)
    ensures RenderRecord(k, d).Success?
    ensures forall h :: ShownAs(SectionFields(d.fields, "device"), "hostname", h) ==>
                          IsInfix("    Hostname: " + h + "\n", RenderRecord(k, d).value)
  {
    var v := Extract(d).value;
    assert RenderRecord(k, d).value == BlockText(k, v);
    ExtractDeviceFields(d);
    BlockShowsFields(k, v);
  }

  /** The block of a record shows the record's own severity. */
  lemma RecordShowsSeverity(k: nat, d: Value)
    requires WellShaped(d)
    ensures RenderRecord(k, d).Success?
    ensures forall s :: ShownAs(d.fields, "severity_name", s) ==>
                          IsInfix("    Severity: " + s + "\n", RenderRecord(k, d).value)
  {
    var v := Extract(d).value;
    assert RenderRecord(k, d).value == BlockText(k, v);
    ExtractRecordFields(d);
    BlockShowsFields(k, v);
  }

  /** The block of a record shows the cut of the record's own command line. */
  lemma RecordShowsCommandLine(k: nat, d: Value)
    requires WellShaped(d)
    ensures RenderRecord(k, d).Success?
    ensures forall c :: Lookup(d.fields, "cmdline") == Some(Str(c)) ==>
                          IsInfix("    CMDline: " + Truncate(c) + "\n", RenderRecord(k, d).value)
  {
    var v := Extract(d).value;
    assert RenderRecord(k, d).value == BlockText(k, v);
    ExtractCommandLines(d);
    BlockShowsFields(k, v);
  }

  /** The blocks of `ds`, block `i` rendered by `render(first + i + 1, ds[i])`;
      fails on the first record `render` rejects. */
  function Blocks(ds: seq<Value>, first: nat, render: (nat, Value) -> Result<string, Fault>)
    : (r: Result<seq<string>, SummaryError>)
    ensures r.Success? <==> forall i :: 0 <= i < |ds| ==> render(first + i + 1, ds[i]).Success?
    ensures r.Success? ==>
              && |r.value| == |ds|
              && forall i :: 0 <= i < |ds| ==> r.value[i] == render(first + i + 1, ds[i]).value
    ensures r.Failure? ==>
              && first <= r.error.index < first + |ds|
              && render(r.error.index + 1, ds[r.error.index - first]) == Failure(r.error.fault)
              && forall i :: 0 <= i < r.error.index - first ==> render(first + i + 1, ds[i]).Success?
    decreases |ds|
  {
    if |ds| == 0 then Success([])
    else
      match render(first + 1, ds[0])
      case Failure(f) => Failure(SummaryError(first, f))
      case Success(block) =>
        var rest :- Blocks(ds[1..], first + 1, render);
        assert forall i :: 1 <= i < |ds| ==> ds[1..][i - 1] == ds[i];
        Success([block] + rest)
  }

  /** `summarize_detections`: the sentinel for anything but a non-empty list,
      otherwise the blocks in order joined by line breaks, or the first failure. */
  function Summarize(data: Value): (r: Result<string, SummaryError>)
    ensures !data.Arr? || data.items == [] ==> r == Success(NoDataMessage)
    ensures data.Arr? && data.items != [] ==>
              (r.Success? <==> forall i :: 0 <= i < |data.items| ==> RenderRecord(i + 1, data.items[i]).Success?)
    ensures r.Failure? ==>
              && data.Arr? && r.error.index < |data.items|
              && RenderRecord(r.error.index + 1, data.items[r.error.index]) == Failure(r.error.fault)
              && forall i :: 0 <= i < r.error.index ==> RenderRecord(i + 1, data.items[i]).Success?
  {
    if !data.Arr? || |data.items| == 0 then Success(NoDataMessage)
    else
      var blocks :- Blocks(data.items, 0, RenderRecord);
      Success(Join("\n", blocks))
  }

  /** A non-empty list is summarised exactly when every record has a shape
      Python can render; otherwise the first bad record is reported. */
  lemma SummarySucceedsIffWellShaped(ds: seq<Value>)
    requires |ds| > 0
    ensures Summarize(Arr(ds)).Success? <==> forall i :: 0 <= i < |ds| ==> WellShaped(ds[i])
    ensures Summarize(Arr(ds)).Failure? ==>
              var e := Summarize(Arr(ds)).error;
              && !WellShaped(ds[e.index])
              && Extract(ds[e.index]) == Failure(e.fault)
              && forall i :: 0 <= i < e.index ==> WellShaped(ds[i])
  {
    var r := Summarize(Arr(ds));
    if r.Failure? {
      var e := r.error;
      assert RenderRecord(e.index + 1, ds[e.index]) == Failure(e.fault);
      forall i | 0 <= i < e.index
        ensures WellShaped(ds[i])
      {
        assert RenderRecord(i + 1, ds[i]).Success?;
      }
    } else {
      forall i | 0 <= i < |ds|
        ensures WellShaped(ds[i])
      {
        assert RenderRecord(i + 1, ds[i]).Success?;
      }
    }
  }

  /** `block` opens with the header of block `k` and ends with a line break. */
  predicate Framed(k: nat, block: string) {
    && |Header(k)| <= |block|
    && block[..|Header(k)|] == Header(k)
    && block[|block| - 1] == '\n'
  }

  /** When every block is framed by its own header, joining the blocks with line
      breaks puts header `k + 1` at the offset of block `k`. */
  lemma JoinedBlocksLayout(blocks: seq<string>)
    requires forall k :: 0 <= k < |blocks| ==> Framed(k + 1, blocks[k])
    ensures var text := Join("\n", blocks);
            forall k :: 0 <= k < |blocks| ==>
              && Offset("\n", blocks, k) + |Header(k + 1)| <= |text|
              && text[Offset("\n", blocks, k)..Offset("\n", blocks, k) + |Header(k + 1)|] == Header(k + 1)
  {
    var text := Join("\n", blocks);
    forall k | 0 <= k < |blocks|
      ensures Offset("\n", blocks, k) + |Header(k + 1)| <= |text|
      ensures text[Offset("\n", blocks, k)..Offset("\n", blocks, k) + |Header(k + 1)|] == Header(k + 1)
    {
      assert Framed(k + 1, blocks[k]);
      JoinPrefixAt("\n", blocks, k, Header(k + 1));
    }
  }

  /** A successful summary is the blocks joined by line breaks, block `k + 1`
      rendered from record `k` alone. */
  lemma SummaryBlocks(ds: seq<Value>)
    requires |ds| > 0 && Summarize(Arr(ds)).Success?
    ensures Blocks(ds, 0, RenderRecord).Success?
    ensures var blocks := Blocks(ds, 0, RenderRecord).value;
            && |blocks| == |ds|
            && Summarize(Arr(ds)).value == Join("\n", blocks)
            && forall k :: 0 <= k < |ds| ==> blocks[k] == RenderRecord(k + 1, ds[k]).value
  {
  }

  /** Every block of a successful rendering opens with its own header
      `Detection k+1:`; with `JoinedBlocksLayout` this puts each header at its
      block's offset in the summary. */
  lemma BlocksFramed(ds: seq<Value>)
    requires Blocks(ds, 0, RenderRecord).Success?
    ensures var blocks := Blocks(ds, 0, RenderRecord).value;
            forall i :: 0 <= i < |blocks| ==> Framed(i + 1, blocks[i])
  {
    var blocks := Blocks(ds, 0, RenderRecord).value;
    forall i | 0 <= i < |blocks|
      ensures Framed(i + 1, blocks[i])
    {
      assert blocks[i] == RenderRecord(i + 1, ds[i]).value;
    }
  }

  /** A real summary never equals the no-data sentinel, so callers can tell them apart. */
  lemma SummaryIsNotSentinel(ds: seq<Value>)
    requires |ds| > 0 && Summarize(Arr(ds)).Success?
    ensures Summarize(Arr(ds)).value != NoDataMessage
  {
    var blocks := Blocks(ds, 0, RenderRecord).value;
    var text := Summarize(Arr(ds)).value;
    assert RenderRecord(1, ds[0]).Success?;
    JoinPieceAt("\n", blocks, 0);
    assert Offset("\n", blocks, 0) == 0;
    assert text[0] == blocks[0][0] == Header(1)[0] == 'D';
  }

  /** A readable description of a failure. */
  function Describe(e: SummaryError): string {
    var what := match e.fault
      case NotAMapping(key) => key + " is not a mapping"
      case NotIterable(key) => key + " cannot be iterated or sliced"
      case NoLength(key) => key + " has no length"
      case CannotTruncate(key) => key + " cannot be cut";
    "detection " + NatToString(e.index + 1) + ": " + what
  }

  /** The text `summarize_detections` returns: the summary, or the error message. */
  function SummaryText(r: Result<string, SummaryError>): (t: string)
    ensures r.Failure? ==> |t| > |ErrorPrefix| && t[..|ErrorPrefix|] == ErrorPrefix
  {
    match r
    case Success(text) => text
    case Failure(e) => ErrorPrefix + Describe(e)
  }
}
