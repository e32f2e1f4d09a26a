/**
 * The records the core passes around. src/aws_adfs_gui/models.py declares all
 * of them; src/aws_adfs/models.py repeats the first eight with the same
 * fields and defaults, so both packages share this one module. Defaults are
 * written as constructor defaults, exactly as the declarations give them.
 * Durations (Python floats) are `real`; Pydantic's `SecretStr` is a plain
 * string here.
 */
module Models {
  import opened Wrappers

  /** The environment a profile belongs to. */
  datatype ProfileGroup = Dev | NonProduction | Production {

    /** The enum member's string value. */
    function Value(): string {
      match this
      case Dev => "dev"
      case NonProduction => "np"
      case Production => "pd"
    }
  }

  /** Every member of `ProfileGroup`, in declaration order. */
  const AllGroups: seq<ProfileGroup> := [Dev, NonProduction, Production]

  /** Python's `ProfileGroup(s)`: the member whose value is `s`; `None` where Python raises `ValueError`. */
  function ParseGroup(s: string): (g: Option<ProfileGroup>)
    ensures g.Some? ==> g.value.Value() == s
    ensures g.None? <==> forall h: ProfileGroup :: h.Value() != s
  {
    if s == "dev" then Some(Dev)
    else if s == "np" then Some(NonProduction)
    else if s == "pd" then Some(Production)
    else None
  }

  /** The enum has exactly three members, with three distinct values, and each value parses back to its member. */
  lemma GroupValueRoundTrip(g: ProfileGroup)
    ensures g in AllGroups
    ensures ParseGroup(g.Value()) == Some(g)
    ensures [Dev.Value(), NonProduction.Value(), Production.Value()] == ["dev", "np", "pd"]
  {
  }

  datatype AWSProfile = AWSProfile(
    name: string,
    group: ProfileGroup,
    region: string := "us-east-1",
    description: Option<string> := None)

  datatype CommandRequest = CommandRequest(
    command: string,
    profiles: seq<string>,
    timeout: int := 300)

  datatype CommandResult = CommandResult(
    profile: string,
    success: bool,
    output: string := "",
    error: Option<string> := None,
    duration: real)

  datatype CommandHistory = CommandHistory(
    id: string,
    command: string,
    timestamp: string,
    profiles: seq<string>,
    successCount: int,
    totalCount: int)

  /** One key of the group-to-profiles dict with its list. */
  datatype GroupEntry = GroupEntry(group: ProfileGroup, profiles: seq<AWSProfile>)

  /** The dict from group to profile list, as its items in insertion order (the order Python iterates them). */
  type GroupTable = seq<GroupEntry>

  datatype ProfileGroups = ProfileGroups(groups: GroupTable := [])

  datatype ExportRequest = ExportRequest(
    format: string := "json",
    includeTimestamps: bool := true)

  datatype ADFSCredentials = ADFSCredentials(
    username: string,
    password: string,
    adfsHost: string,
    certificatePath: Option<string> := None)

  datatype ConnectionSettings = ConnectionSettings(
    timeout: int := 30,
    retries: int := 3,
    noSspi: bool := true,
    envMode: bool := true)

  datatype AuthenticationRequest = AuthenticationRequest(
    profile: string,
    credentials: ADFSCredentials,
    settings: ConnectionSettings := ConnectionSettings())

  /** The declared defaults, as a caller that gives only the required fields sees them. */
  lemma Defaults(name: string, group: ProfileGroup, command: string, profiles: seq<string>, success: bool,
                 duration: real, credentials: ADFSCredentials)
    ensures var p := AWSProfile(name, group); p.region == "us-east-1" && p.description.None?
    ensures CommandRequest(command, profiles).timeout == 300
    ensures var r := CommandResult(name, success, duration := duration); r.output == "" && r.error.None?
    ensures ProfileGroups().groups == []
    ensures ExportRequest().format == "json" && ExportRequest().includeTimestamps
    ensures var c := ConnectionSettings(); c.timeout == 30 && c.retries == 3 && c.noSspi && c.envMode
    ensures AuthenticationRequest(name, credentials).settings == ConnectionSettings()
  {
  }
}
