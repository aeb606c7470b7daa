/**
 * Decision engine: `check_vehicle(plate)`.
 *
 * The plate is checked against an allow-list and five offence sets in a
 * fixed order; each hit appends one offence label, and the result is
 * `"APPROVED | Clean Record"` or `"REJECTED | "` followed by the labels
 * joined with `", "`.
 */
module Policy {
  import opened Text

  datatype Offence =
    | InvalidLicense
    | CriminalRecord
    | TrafficViolations
    | InsuranceExpired
    | PucInvalid
    | AccidentRecord

  /** The text each offence contributes to the status line. */
  function Label(o: Offence): string
  {
    match o
    case InvalidLicense => "Invalid License"
    case CriminalRecord => "Criminal Record"
    case TrafficViolations => "Traffic Violations"
    case InsuranceExpired => "Insurance Expired"
    case PucInvalid => "PUC Invalid"
    case AccidentRecord => "Accident Record"
  }

  /** Position of each check in `check_vehicle`. */
  function Rank(o: Offence): nat
  {
    match o
    case InvalidLicense => 0
    case CriminalRecord => 1
    case TrafficViolations => 2
    case InsuranceExpired => 3
    case PucInvalid => 4
    case AccidentRecord => 5
  }

  /** The six module-level sets a script consults. */
  datatype Registry = Registry(
    valid: set<string>,
    criminal: set<string>,
    traffic: set<string>,
    insurance: set<string>,
    puc: set<string>,
    accident: set<string>)

  /** Whether the registry raises offence o against plate. */
  predicate Flagged(reg: Registry, plate: string, o: Offence)
  {
    match o
    case InvalidLicense => plate !in reg.valid
    case CriminalRecord => plate in reg.criminal
    case TrafficViolations => plate in reg.traffic
    case InsuranceExpired => plate in reg.insurance
    case PucInvalid => plate in reg.puc
    case AccidentRecord => plate in reg.accident
  }

  /** Strictly increasing check positions: the fixed order, each offence at most once. */
  predicate InFixedOrder(offs: seq<Offence>)
  {
    forall i, j :: 0 <= i < j < |offs| ==> Rank(offs[i]) < Rank(offs[j])
  }

  /** `if flagged: offenses.append(o)`, where o comes after every offence already listed. */
  function AppendIf(offs: seq<Offence>, flagged: bool, o: Offence): (r: seq<Offence>)
    requires InFixedOrder(offs)
    requires forall x :: x in offs ==> Rank(x) < Rank(o)
    ensures InFixedOrder(r)
    ensures forall x :: x in r <==> x in offs || (flagged && x == o)
    ensures forall x :: x in r ==> Rank(x) <= Rank(o)
  {
    if flagged then offs + [o] else offs
  }

  /**
   * The `offenses` list `check_vehicle` builds: exactly the flagged
   * offences, in the fixed check order.
   */
  function Offences(reg: Registry, plate: string): (offs: seq<Offence>)
    ensures InFixedOrder(offs)
  {
    var o0 := AppendIf([], plate !in reg.valid, InvalidLicense);
    var o1 := AppendIf(o0, plate in reg.criminal, CriminalRecord);
    var o2 := AppendIf(o1, plate in reg.traffic, TrafficViolations);
    var o3 := AppendIf(o2, plate in reg.insurance, InsuranceExpired);
    var o4 := AppendIf(o3, plate in reg.puc, PucInvalid);
    var o5 := AppendIf(o4, plate in reg.accident, AccidentRecord);
    o5
  }

  /** The offence list holds exactly the offences the registry raises against the plate. */
  lemma OffencesMembers(reg: Registry, plate: string)
    ensures forall o :: o in Offences(reg, plate) <==> Flagged(reg, plate, o)
  {
  }

  function Labels(offs: seq<Offence>): (r: seq<string>)
    ensures |r| == |offs|
    ensures forall k :: 0 <= k < |offs| ==> r[k] == Label(offs[k])
  {
    seq(|offs|, k requires 0 <= k < |offs| => Label(offs[k]))
  }

  /** The string `check_vehicle` returns for a list of offences. */
  function StatusLine(offs: seq<Offence>): string
  {
    if |offs| > 0 then "REJECTED | " + Join(Labels(offs), ", ")
    else "APPROVED | Clean Record"
  }

  /** `check_vehicle(plate)` */
  function CheckVehicle(reg: Registry, plate: string): string
  {
    StatusLine(Offences(reg, plate))
  }

  lemma NoMembersEmpty<T>(s: seq<T>)
    ensures (forall x :: x !in s) ==> s == []
  {
    if |s| > 0 {
      assert s[0] in s;
    }
  }

  /** Two offence lists in the fixed order with the same members are the same list. */
  lemma {:induction false} OrderedListsEqual(a: seq<Offence>, b: seq<Offence>)
    requires InFixedOrder(a) && InFixedOrder(b)
    requires forall o :: o in a <==> o in b
    ensures a == b
  {
    if a == [] {
      NoMembersEmpty(b);
    } else {
      assert a[0] in b;
      assert b[0] in a;
      assert a[0] == b[0];
      forall o ensures o in a[1..] <==> o in b[1..] {
        if o in a[1..] {
          var i :| 1 <= i < |a| && a[i] == o;
          assert Rank(a[0]) < Rank(o);
          assert o in b;
          var i' :| 0 <= i' < |b| && b[i'] == o;
          assert i' != 0;
          assert b[1..][i' - 1] == o;
        }
        if o in b[1..] {
          var i :| 1 <= i < |b| && b[i] == o;
          assert Rank(b[0]) < Rank(o);
          assert o in a;
          var i' :| 0 <= i' < |a| && a[i'] == o;
          assert i' != 0;
          assert a[1..][i' - 1] == o;
        }
      }
      OrderedListsEqual(a[1..], b[1..]);
      assert a == [a[0]] + a[1..] && b == [b[0]] + b[1..];
    }
  }

  /**
   * The order and membership properties pin the offence list down
   * completely: any list in the fixed order holding exactly the flagged
   * offences is the one `check_vehicle` builds.
   */
  lemma OffencesDetermined(reg: Registry, plate: string, offs: seq<Offence>)
    requires InFixedOrder(offs)
    requires forall o :: o in offs <==> Flagged(reg, plate, o)
    ensures offs == Offences(reg, plate)
  {
    OffencesMembers(reg, plate);
    OrderedListsEqual(offs, Offences(reg, plate));
  }

  /** No offence label and no literal of the rejection line contains the letter 'O'. */
  lemma RejectionHasNoCapitalO(offs: seq<Offence>)
    ensures 'O' !in "REJECTED | " + Join(Labels(offs), ", ")
  {
    var labels := Labels(offs);
    forall k | 0 <= k < |labels| ensures 'O' !in labels[k] {
      LabelHasNoCapitalO(offs[k]);
    }
    JoinAvoids(labels, ", ", 'O');
    assert 'O' !in "REJECTED | ";
  }

  lemma LabelHasNoCapitalO(o: Offence)
    ensures 'O' !in Label(o)
  {
    match o
    case InvalidLicense =>
    case CriminalRecord =>
    case TrafficViolations =>
    case InsuranceExpired =>
    case PucInvalid =>
    case AccidentRecord =>
  }

  /**
   * The downstream test `"APPROVED" in status` is true exactly when no
   * offence was found.
   */
  lemma ApprovedIffClean(offs: seq<Offence>)
    ensures Contains(StatusLine(offs), "APPROVED") <==> offs == []
  {
    var status := StatusLine(offs);
    if offs == [] {
      assert StartsWith(status, "APPROVED");
      StartsWithContains(status, "APPROVED");
    } else {
      assert "APPROVED"[4] == 'O';
      RejectionHasNoCapitalO(offs);
      MissingCharNotContained(status, "APPROVED", 'O');
    }
  }

  /**
   * `status.startswith("REJECTED")` and `"REJECTED" in status` are both
   * true exactly when some offence was found.
   */
  lemma RejectedIffOffences(offs: seq<Offence>)
    ensures StartsWith(StatusLine(offs), "REJECTED") <==> offs != []
    ensures Contains(StatusLine(offs), "REJECTED") <==> offs != []
  {
    var status := StatusLine(offs);
    if offs != [] {
      assert StartsWith(status, "REJECTED");
      StartsWithContains(status, "REJECTED");
    } else {
      assert status == "APPROVED | Clean Record";
      assert status[0] == 'A';
      assert "REJECTED"[2] == 'J';
      MissingCharNotContained(status, "REJECTED", 'J');
    }
  }

  /** Every offence set is a subset of the allow-list. */
  predicate Nested(reg: Registry)
  {
    && reg.criminal <= reg.valid
    && reg.traffic <= reg.valid
    && reg.insurance <= reg.valid
    && reg.puc <= reg.valid
    && reg.accident <= reg.valid
  }

  /** Over nested data "Invalid License" never comes with another offence. */
  lemma InvalidLicenseAlone(reg: Registry, plate: string)
    requires Nested(reg)
    requires InvalidLicense in Offences(reg, plate)
    ensures Offences(reg, plate) == [InvalidLicense]
  {
    OffencesMembers(reg, plate);
    forall o ensures o in [InvalidLicense] <==> Flagged(reg, plate, o) {
      assert Flagged(reg, plate, InvalidLicense);
    }
    OffencesDetermined(reg, plate, [InvalidLicense]);
  }

  /** A registered plate on no offence set is approved with a clean record. */
  lemma CleanPlateApproved(reg: Registry, plate: string)
    requires plate in reg.valid
    requires plate !in reg.criminal && plate !in reg.traffic && plate !in reg.insurance
    requires plate !in reg.puc && plate !in reg.accident
    ensures CheckVehicle(reg, plate) == "APPROVED | Clean Record"
  {
  }

  /** A plate missing from the allow-list is rejected with "Invalid License" listed first. */
  lemma UnregisteredPlateRejected(reg: Registry, plate: string)
    requires plate !in reg.valid
    ensures StartsWith(CheckVehicle(reg, plate), "REJECTED | Invalid License")
  {
    OffencesMembers(reg, plate);
    var offs := Offences(reg, plate);
    assert InvalidLicense in offs;
    var k :| 0 <= k < |offs| && offs[k] == InvalidLicense;
    assert offs[0] == InvalidLicense;
    var labels := Labels(offs);
    assert labels[0] == "Invalid License";
    assert CheckVehicle(reg, plate) == "REJECTED | " + Join(labels, ", ");
    JoinStartsWithFirst(labels, ", ");
    PrefixExtends("REJECTED | ", Join(labels, ", "), "Invalid License");
    InvalidLicensePrefix();
  }

  // String literal facts, each kept in a context of its own.
  lemma InvalidLicensePrefix()
    ensures "REJECTED | " + "Invalid License" == "REJECTED | Invalid License"
  {
  }

  lemma CriminalRecordLiteral()
    ensures "REJECTED | " + "Criminal Record" == "REJECTED | Criminal Record"
  {
  }

  lemma PucLiteral()
    ensures "REJECTED | " + ("Invalid License" + ", " + "PUC Invalid") == "REJECTED | Invalid License, PUC Invalid"
  {
  }

  lemma TrafficAccidentLiteral()
    ensures "Traffic Violations" + ", " + "Accident Record" == "Traffic Violations, Accident Record"
  {
  }

  lemma CriminalRecordComma()
    ensures "Criminal Record" + ", " == "Criminal Record, "
  {
  }

  lemma CriminalRecordPrefix()
    ensures "REJECTED | " + "Criminal Record, " == "REJECTED | Criminal Record, "
  {
  }

  lemma ThreeOffenceSuffix()
    ensures "REJECTED | Criminal Record, " + "Traffic Violations, Accident Record"
         == "REJECTED | Criminal Record, Traffic Violations, Accident Record"
  {
  }

  /** The literal line v1.py prints for RJ77PN7777, assembled piece by piece. */
  lemma ThreeOffenceText()
    ensures StatusLine([CriminalRecord, TrafficViolations, AccidentRecord])
         == "REJECTED | Criminal Record, Traffic Violations, Accident Record"
  {
    var a, b, c := "REJECTED | ", "Criminal Record, ", "Traffic Violations, Accident Record";
    ThreeOffenceLine(CriminalRecord, TrafficViolations, AccidentRecord);
    TrafficAccidentLiteral();
    CriminalRecordComma();
    assert "Criminal Record" + ", " + c == b + c;
    assert a + (b + c) == (a + b) + c;
    CriminalRecordPrefix();
    ThreeOffenceSuffix();
  }

  /** The larger data set of v1.py; its PUC-only plates are not registered. */
  function V1Registry(): Registry
  {
    Registry(
      valid := {
        "MH44AB4444", "DL55CD5555", "GJ22LM2222", "HR33MN3333", "KA11UV1111",
        "KA66EF6666", "KA77BC7777", "UP88CD8888", "RJ22EF2222",
        "TN77GH7777", "HR66GH6666", "PB77JK7777",
        "WB88JK8888", "MP66KG6666",
        "UP44CR4444", "BR55MD5555", "RJ77PN7777"},
      criminal := {"KA66EF6666", "KA77BC7777", "UP88CD8888", "RJ22EF2222", "UP44CR4444", "RJ77PN7777"},
      traffic := {"TN77GH7777", "HR66GH6666", "PB77JK7777", "BR55MD5555", "RJ77PN7777"},
      insurance := {"WB88JK8888", "BR55MD5555", "MP66KG6666"},
      puc := {"MP66KG6666", "MP22PU2222", "UP33PU3333", "BR44PU4444", "RJ55PU5555"},
      accident := {"UP44CR4444", "RJ77PN7777"})
  }

  /** The data set shared by v2.py, toll_gate.py, withPayment.py and withPayment-copy2.py. */
  function SharedRegistry(): Registry
  {
    Registry(
      valid := {
        "MH44AB4444", "DL55CD5555", "KA66EF6666",
        "TN77GH7777", "WB88JK8888", "UP44CR4444",
        "BR55MD5555", "MP66KG6666", "RJ77PN7777"},
      criminal := {"KA66EF6666", "UP44CR4444", "RJ77PN7777"},
      traffic := {"TN77GH7777", "BR55MD5555", "RJ77PN7777"},
      insurance := {"WB88JK8888", "BR55MD5555", "MP66KG6666"},
      puc := {"MP66KG6666"},
      accident := {"UP44CR4444", "RJ77PN7777"})
  }

  /** The status line for a single offence. */
  lemma OneOffenceLine(o: Offence)
    ensures StatusLine([o]) == "REJECTED | " + Label(o)
  {
    assert Labels([o]) == [Label(o)];
  }

  /** The status line for two offences. */
  lemma TwoOffenceLine(o1: Offence, o2: Offence)
    ensures StatusLine([o1, o2]) == "REJECTED | " + (Label(o1) + ", " + Label(o2))
  {
    var labels := Labels([o1, o2]);
    assert labels == [Label(o1), Label(o2)];
    assert labels[1..] == [Label(o2)];
    assert Join(labels, ", ") == Label(o1) + ", " + Label(o2);
  }

  /** v1.py: a registered plate with a criminal record only. */
  lemma V1CriminalOnly()
    ensures CheckVehicle(V1Registry(), "KA66EF6666") == "REJECTED | Criminal Record"
  {
    var reg := V1Registry();
    assert "KA66EF6666" in reg.valid && "KA66EF6666" in reg.criminal && "KA66EF6666" !in reg.traffic;
    assert "KA66EF6666" !in reg.insurance && "KA66EF6666" !in reg.puc && "KA66EF6666" !in reg.accident;
    OffencesDetermined(reg, "KA66EF6666", [CriminalRecord]);
    OneOffenceLine(CriminalRecord);
    CriminalRecordLiteral();
  }

  /** v1.py: a plate on no list at all. */
  lemma V1Unknown()
    ensures CheckVehicle(V1Registry(), "ZZ00ZZ0000") == "REJECTED | Invalid License"
  {
    var reg := V1Registry();
    assert "ZZ00ZZ0000" !in reg.valid && "ZZ00ZZ0000" !in reg.criminal && "ZZ00ZZ0000" !in reg.traffic;
    assert "ZZ00ZZ0000" !in reg.insurance && "ZZ00ZZ0000" !in reg.puc && "ZZ00ZZ0000" !in reg.accident;
    OffencesDetermined(reg, "ZZ00ZZ0000", [InvalidLicense]);
    OneOffenceLine(InvalidLicense);
    InvalidLicensePrefix();
  }

  /** v1.py: a PUC-invalid plate that is not registered collects both offences. */
  lemma V1UnregisteredPuc()
    ensures CheckVehicle(V1Registry(), "MP22PU2222") == "REJECTED | Invalid License, PUC Invalid"
  {
    var reg := V1Registry();
    assert "MP22PU2222" !in reg.valid && "MP22PU2222" !in reg.criminal && "MP22PU2222" !in reg.traffic;
    assert "MP22PU2222" !in reg.insurance && "MP22PU2222" in reg.puc && "MP22PU2222" !in reg.accident;
    OffencesDetermined(reg, "MP22PU2222", [InvalidLicense, PucInvalid]);
    TwoOffenceLine(InvalidLicense, PucInvalid);
    PucLiteral();
  }

  /** v1.py: three offences, listed in the fixed check order. */
  lemma V1ThreeOffences()
    ensures CheckVehicle(V1Registry(), "RJ77PN7777")
         == "REJECTED | Criminal Record, Traffic Violations, Accident Record"
  {
    var reg, offs := V1Registry(), [CriminalRecord, TrafficViolations, AccidentRecord];
    assert "RJ77PN7777" in reg.valid && "RJ77PN7777" in reg.criminal && "RJ77PN7777" in reg.traffic;
    assert "RJ77PN7777" !in reg.insurance && "RJ77PN7777" !in reg.puc && "RJ77PN7777" in reg.accident;
    OffencesDetermined(reg, "RJ77PN7777", offs);
    ThreeOffenceText();
  }

  /** The status line for three offences. */
  lemma ThreeOffenceLine(o1: Offence, o2: Offence, o3: Offence)
    ensures StatusLine([o1, o2, o3]) == "REJECTED | " + (Label(o1) + ", " + (Label(o2) + ", " + Label(o3)))
  {
    var labels := Labels([o1, o2, o3]);
    assert labels == [Label(o1), Label(o2), Label(o3)];
    assert labels[1..] == [Label(o2), Label(o3)];
    assert labels[1..][1..] == [Label(o3)];
    assert Join(labels[1..], ", ") == Label(o2) + ", " + Label(o3);
  }

  /** v1.py: a clean registered plate. */
  lemma V1Clean()
    ensures Offences(V1Registry(), "MH44AB4444") == []
    ensures CheckVehicle(V1Registry(), "MH44AB4444") == "APPROVED | Clean Record"
  {
    OffencesDetermined(V1Registry(), "MH44AB4444", []);
  }

  /** In v1.py's data the PUC set is not nested in the allow-list. */
  lemma V1PucUnregistered()
    ensures "MP22PU2222" in V1Registry().puc && "MP22PU2222" !in V1Registry().valid
    ensures !Nested(V1Registry())
  {
  }

  /** The shared data is nested, so "Invalid License" always stands alone there. */
  lemma SharedRegistryNested()
    ensures Nested(SharedRegistry())
  {
  }

  /** Decisions the four other scripts give on the shared data. */
  lemma SharedDecisions()
    ensures CheckVehicle(SharedRegistry(), "KA66EF6666") == "REJECTED | Criminal Record"
    ensures CheckVehicle(SharedRegistry(), "MH44AB4444") == "APPROVED | Clean Record"
    ensures CheckVehicle(SharedRegistry(), "ZZ00ZZ0000") == "REJECTED | Invalid License"
  {
    SharedCriminal();
    SharedClean();
    SharedUnknown();
  }

  lemma SharedCriminal()
    ensures CheckVehicle(SharedRegistry(), "KA66EF6666") == "REJECTED | Criminal Record"
  {
    var reg := SharedRegistry();
    assert "KA66EF6666" in reg.valid && "KA66EF6666" in reg.criminal && "KA66EF6666" !in reg.traffic;
    assert "KA66EF6666" !in reg.insurance && "KA66EF6666" !in reg.puc && "KA66EF6666" !in reg.accident;
    OffencesDetermined(reg, "KA66EF6666", [CriminalRecord]);
    OneOffenceLine(CriminalRecord);
    CriminalRecordLiteral();
  }

  lemma SharedClean()
    ensures CheckVehicle(SharedRegistry(), "MH44AB4444") == "APPROVED | Clean Record"
  {
    var reg := SharedRegistry();
    assert "MH44AB4444" in reg.valid && "MH44AB4444" !in reg.criminal && "MH44AB4444" !in reg.traffic;
    assert "MH44AB4444" !in reg.insurance && "MH44AB4444" !in reg.puc && "MH44AB4444" !in reg.accident;
    OffencesDetermined(reg, "MH44AB4444", []);
  }

  lemma SharedUnknown()
    ensures CheckVehicle(SharedRegistry(), "ZZ00ZZ0000") == "REJECTED | Invalid License"
  {
    var reg := SharedRegistry();
    assert "ZZ00ZZ0000" !in reg.valid && "ZZ00ZZ0000" !in reg.criminal && "ZZ00ZZ0000" !in reg.traffic;
    assert "ZZ00ZZ0000" !in reg.insurance && "ZZ00ZZ0000" !in reg.puc && "ZZ00ZZ0000" !in reg.accident;
    OffencesDetermined(reg, "ZZ00ZZ0000", [InvalidLicense]);
    OneOffenceLine(InvalidLicense);
    InvalidLicensePrefix();
  }
}
