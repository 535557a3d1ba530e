/** Worked instances of the summariser's promises on concrete records. */
module Scenarios {
  import opened Wrappers
  import opened Text
  import opened Json
  import opened Summarizer

  /** A command line of 150 characters. */
  function LongCommand(): (s: string)
    ensures |s| == 150
  {
    seq(150, i => 'x')
  }

  /** One record: host `WKS-01`, severity `High`, a 150-character command line,
      and empty IOC and network lists. */
  function Workstation(): Value {
    var device := With([], "hostname", Str("WKS-01"));
    var fs := With([], "device", Obj(device));
    var fs := With(fs, "severity_name", Str("High"));
    var fs := With(fs, "cmdline", Str(LongCommand()));
    var fs := With(fs, "ioc_context", Arr([]));
    Obj(With(fs, "network_accesses", Arr([])))
  }

  /** What the record reads as: the given host and severity verbatim, the
      device fields it lacks `Unknown`, no IOCs and no network accesses. */
  lemma WorkstationView()
    ensures Extract(Workstation()).Success?
    ensures var v := Extract(Workstation()).value;
            && v.hostname == "WKS-01"
            && v.severity == "High"
            && v.deviceId == Unknown && v.osVersion == Unknown
            && v.localIp == Unknown && v.externalIp == Unknown
            && v.iocs == [] && v.network == []
  {
    assert WellShaped(Workstation());
    ExtractDeviceFields(Workstation());
    ExtractLists(Workstation());
  }

  /** The record has no event fields, so they read as `Unknown`; with no
      disposition details neither remediation flag is set. */
  lemma WorkstationEventUnknowns()
    ensures Extract(Workstation()).Success?
    ensures var v := Extract(Workstation()).value;
            && v.name == Unknown && v.tactic == Unknown && v.technique == Unknown
            && v.timestamp == Unknown && v.disposition == Unknown
            && !v.processBlocked && !v.quarantineFile
  {
    assert WellShaped(Workstation());
    ExtractRecordFields(Workstation());
  }

  /** The record has no file or user fields, so they read as `Unknown`. */
  lemma WorkstationFileUnknowns()
    ensures Extract(Workstation()).Success?
    ensures var v := Extract(Workstation()).value;
            && v.filename == Unknown && v.filepath == Unknown && v.sha256 == Unknown
            && v.user == Unknown
  {
    assert WellShaped(Workstation());
    ExtractRecordFields(Workstation());
  }

  /** The record names no parent or grandparent, so both read as `Unknown` throughout. */
  lemma WorkstationAncestorsUnknown()
    ensures Extract(Workstation()).Success?
    ensures Extract(Workstation()).value.parent == Lineage(Unknown, Unknown, Unknown)
    ensures Extract(Workstation()).value.grandparent == Lineage(Unknown, Unknown, Unknown)
  {
    var fs := Workstation().fields;
    assert Lookup(fs, "parent_details").None?;
    assert Lookup(fs, "grandparent_details").None?;
    assert SectionFields(fs, "parent_details") == [];
    assert SectionFields(fs, "grandparent_details") == [];
    assert WellShaped(Workstation());
    ExtractLineageFields(Workstation());
    ExtractCommandLines(Workstation());
  }

  /** The record's 150-character command line is shown cut to 100 characters
      plus the marker. */
  lemma WorkstationCommandLine()
    ensures Extract(Workstation()).Success?
    ensures Extract(Workstation()).value.cmdline == LongCommand()[..100] + "..."
  {
    WorkstationView();
    ExtractCommandLines(Workstation());
  }

  /** A one-record list is summarised as that record's block number 1. */
  lemma WorkstationSummary()
    ensures Summarize(Arr([Workstation()])) == Success(BlockText(1, Extract(Workstation()).value))
  {
    WorkstationView();
  }

  /** The lines such a record shows in block 1: its host, severity and cut
      command line. */
  lemma WorkstationBlock(v: DetectionView)
    requires v.hostname == "WKS-01" && v.severity == "High" && v.cmdline == LongCommand()[..100] + "..."
    ensures IsInfix("    Hostname: WKS-01\n", BlockText(1, v))
    ensures IsInfix("    Severity: High\n", BlockText(1, v))
    ensures IsInfix("    CMDline: " + LongCommand()[..100] + "...\n", BlockText(1, v))
  {
    BlockShowsFields(1, v);
    assert "    Hostname: " + v.hostname + "\n" == "    Hostname: WKS-01\n";
    assert "    Severity: " + v.severity + "\n" == "    Severity: High\n";
    assert "    CMDline: " + v.cmdline + "\n" == "    CMDline: " + LongCommand()[..100] + "...\n";
  }

  /** Block 1 of such a record is headed `Detection 1:` and shows `None` for both lists. */
  lemma WorkstationBlockFrame(v: DetectionView)
    requires v.iocs == [] && v.network == []
    ensures BlockText(1, v)[..|Header(1)|] == Header(1) == "Detection 1:\n"
    ensures IsInfix("  IOCs:\n    - None\n", BlockText(1, v))
    ensures IsInfix("  Network Accesses:\n    - None\n", BlockText(1, v))
  {
    BlockShowsFields(1, v);
    BlockFrame(1, v);
  }

  /** The summary of the one-record list: headed `Detection 1:`, showing the
      host, the severity, the cut command line, and `None` for both lists. */
  lemma WorkstationText()
    ensures Summarize(Arr([Workstation()])).Success?
    ensures var text := Summarize(Arr([Workstation()])).value;
            && text[..|Header(1)|] == Header(1) == "Detection 1:\n"
            && IsInfix("    Hostname: WKS-01\n", text)
            && IsInfix("    Severity: High\n", text)
            && IsInfix("    CMDline: " + LongCommand()[..100] + "...\n", text)
            && IsInfix("  IOCs:\n    - None\n", text)
            && IsInfix("  Network Accesses:\n    - None\n", text)
  {
    WorkstationView();
    WorkstationCommandLine();
    WorkstationSummary();
    WorkstationBlock(Extract(Workstation()).value);
    WorkstationBlockFrame(Extract(Workstation()).value);
  }
}
