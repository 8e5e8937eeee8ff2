/**
 * The three modes of the fixture and the string each publishes, shared by
 * both packages, and the skip helper that reads the published string back.
 */
module Modes {
  import opened Ledger

  datatype Mode = StoreData | Mock | Normal

  /** The enum member's value: one of three strings, `"Normal"` only for NORMAL. */
  function ModeValue(m: Mode): (v: string)
    ensures v in {"Store Data", "Mock", "Normal"}
    ensures v == "Normal" <==> m == Normal
  {
    match m
    case StoreData => "Store Data"
    case Mock => "Mock"
    case Normal => "Normal"
  }

  /** `Mode(s)`: the member whose value is `s`, None where Python raises ValueError. */
  function ModeOf(s: string): (r: Option<Mode>)
    ensures r.Some? ==> ModeValue(r.value) == s
    ensures r.None? <==> s !in {"Store Data", "Mock", "Normal"}
  {
    if s == "Store Data" then Some(StoreData)
    else if s == "Mock" then Some(Mock)
    else if s == "Normal" then Some(Normal)
    else None
  }

  /** The three values are distinct, so a published value names exactly one mode. */
  lemma ModeValueRoundTrip(m: Mode, n: Mode)
    ensures ModeOf(ModeValue(m)) == Some(m)
    ensures ModeValue(m) == ModeValue(n) ==> m == n
  {
    assert "Store Data"[0] != "Mock"[1];
    assert "Store Data"[0] != "Normal"[0];
    assert "Mock"[0] != "Normal"[0];
  }

  /** The `pytest.fail` both fixtures raise when both flags are given. */
  const BothFlags := Error("Failed", "The command line flags --store-db-data and --mock-db-data are mutually exclusive.", false)

  /** The mode two non-clashing flags select: storing wins over mocking, neither is NORMAL. */
  function FlagMode(storing: bool, mocking: bool): (m: Mode)
    ensures !(storing && mocking) ==> (m == StoreData <==> storing) && (m == Mock <==> mocking)
    ensures m == Normal <==> !storing && !mocking
  {
    if storing then StoreData else if mocking then Mock else Normal
  }

  /** `skip_for_db_mocking`: whether a test is skipped, given the published `PMSM_MODE`. */
  function SkipForDbMocking(published: Option<string>): (skip: bool)
    ensures skip <==> published != Some("Normal")
  {
    published != Some(ModeValue(Normal))
  }

  /** Once a mode is published, a test is skipped exactly when data is stored or mocked. */
  lemma SkipFollowsMode(m: Mode)
    ensures SkipForDbMocking(Some(ModeValue(m))) <==> m != Normal
  {
    ModeValueRoundTrip(m, Normal);
  }
}
