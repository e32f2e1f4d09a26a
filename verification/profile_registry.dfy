/**
 * The profile registry of src/aws_adfs/config.py: a dict from group to
 * profile list, with the lookups, additions and removals the `Config` class
 * performs on it, and its persistence with a fallback to the default
 * profiles. The dict is a `GroupTable` (its items in insertion order); the
 * JSON file is a `ConfigFile` value.
 */
module ProfileRegistry {
  import opened Wrappers
  import opened Models

  /** The dict's keys, in order. */
  function Groups(t: GroupTable): (gs: seq<ProfileGroup>)
    ensures |gs| == |t| && forall i :: 0 <= i < |t| ==> gs[i] == t[i].group
  {
    seq(|t|, i requires 0 <= i < |t| => t[i].group)
  }

  /** A dict holds each key once. */
  predicate ValidTable(t: GroupTable) {
    forall i, j :: 0 <= i < j < |t| ==> t[i].group != t[j].group
  }

  /** The position of key `g`, or `|t|` when `g` is not a key. */
  function IndexOfGroup(t: GroupTable, g: ProfileGroup): (k: nat)
    ensures k <= |t|
    ensures k < |t| ==> t[k].group == g
    ensures forall i :: 0 <= i < k ==> t[i].group != g
  {
    if t == [] then 0 else if t[0].group == g then 0 else 1 + IndexOfGroup(t[1..], g)
  }

  /** The contract of `IndexOfGroup` leaves no choice. */
  lemma IndexOfGroupIs(t: GroupTable, g: ProfileGroup, k: nat)
    requires k <= |t|
    requires k < |t| ==> t[k].group == g
    requires forall i :: 0 <= i < k ==> t[i].group != g
    ensures IndexOfGroup(t, g) == k
  {
  }

  /** Python's `groups.get(g, [])`. */
  function ProfilesOf(t: GroupTable, g: ProfileGroup): seq<AWSProfile>
  {
    var k := IndexOfGroup(t, g);
    if k < |t| then t[k].profiles else []
  }

  /** Every profile: group by group in dict order, then in list order. */
  function AllProfiles(t: GroupTable): (ps: seq<AWSProfile>)
    ensures |ps| == TotalCount(t)
  {
    if t == [] then [] else AllProfiles(t[..|t| - 1]) + t[|t| - 1].profiles
  }

  /** The number of profiles in all lists together. */
  function TotalCount(t: GroupTable): nat
  {
    if t == [] then 0 else TotalCount(t[..|t| - 1]) + |t[|t| - 1].profiles|
  }

  function Names(ps: seq<AWSProfile>): (names: seq<string>)
    ensures |names| == |ps| && forall i :: 0 <= i < |ps| ==> names[i] == ps[i].name
  {
    seq(|ps|, i requires 0 <= i < |ps| => ps[i].name)
  }

  /** Python's `get_profile_names`, as a value: the names of `AllProfiles`. */
  function ProfileNames(t: GroupTable): (names: seq<string>)
    ensures |names| == TotalCount(t)
  {
    Names(AllProfiles(t))
  }

  /** The flattened list has one entry per profile of every group. */
  lemma {:induction false} ProfileNamesCount(t: GroupTable)
    ensures |ProfileNames(t)| == |AllProfiles(t)| == TotalCount(t)
  {
    if t != [] {
      ProfileNamesCount(t[..|t| - 1]);
    }
  }

  /** Flattening distributes over concatenation of tables. */
  lemma {:induction false} AllProfilesAppend(a: GroupTable, b: GroupTable)
    ensures AllProfiles(a + b) == AllProfiles(a) + AllProfiles(b)
    decreases |b|
  {
    if b == [] {
      assert a + b == a;
    } else {
      var b' := b[..|b| - 1];
      assert (a + b)[..|a + b| - 1] == a + b';
      AllProfilesAppend(a, b');
    }
  }

  lemma {:induction false} AllProfilesSplit(t: GroupTable, k: nat)
    requires k < |t|
    ensures AllProfiles(t) == AllProfiles(t[..k]) + t[k].profiles + AllProfiles(t[k + 1..])
  {
    var a, b := t[..k], t[k + 1..];
    assert t == a + ([t[k]] + b);
    AllProfilesAppend(a, [t[k]] + b);
    AllProfilesCons(t[k], b);
  }

  lemma {:induction false} AllProfilesCons(e: GroupEntry, t: GroupTable)
    ensures AllProfiles([e] + t) == e.profiles + AllProfiles(t)
  {
    AllProfilesAppend([e], t);
    assert [e][..0] == [];
  }

  /** The index of the first profile named `name`, or `|ps|` when there is none. */
  function FirstIndexNamed(ps: seq<AWSProfile>, name: string): (k: nat)
    ensures k <= |ps|
    ensures k < |ps| ==> ps[k].name == name
    ensures forall j :: 0 <= j < k ==> ps[j].name != name
  {
    if ps == [] then 0 else if ps[0].name == name then 0 else 1 + FirstIndexNamed(ps[1..], name)
  }

  /** The contract of `FirstIndexNamed` leaves no choice. */
  lemma FirstIndexNamedIs(ps: seq<AWSProfile>, name: string, k: nat)
    requires k <= |ps|
    requires k < |ps| ==> ps[k].name == name
    requires forall j :: 0 <= j < k ==> ps[j].name != name
    ensures FirstIndexNamed(ps, name) == k
  {
  }

  lemma NamedIffFound(ps: seq<AWSProfile>, name: string)
    ensures name in Names(ps) <==> FirstIndexNamed(ps, name) < |ps|
  {
    if name in Names(ps) {
      var i :| 0 <= i < |ps| && Names(ps)[i] == name;
      assert ps[i].name == name;
    }
  }

  lemma FirstIndexNamedAppend(a: seq<AWSProfile>, b: seq<AWSProfile>, name: string)
    ensures FirstIndexNamed(a + b, name)
         == if FirstIndexNamed(a, name) < |a| then FirstIndexNamed(a, name) else |a| + FirstIndexNamed(b, name)
  {
    var ka, kb := FirstIndexNamed(a, name), FirstIndexNamed(b, name);
    if ka < |a| {
      FirstIndexNamedIs(a + b, name, ka);
    } else {
      assert forall j :: 0 <= j < |a| ==> (a + b)[j] == a[j];
      assert forall j :: |a| <= j < |a| + kb ==> (a + b)[j] == b[j - |a|];
      FirstIndexNamedIs(a + b, name, |a| + kb);
    }
  }

  /** Python's `get_profile_by_name`, as a value: the first profile with that name, if any. */
  function FindByName(t: GroupTable, name: string): (r: Option<AWSProfile>)
    ensures r.None? <==> name !in ProfileNames(t)
    ensures r.Some? ==> r.value.name == name
    ensures r.Some? ==> exists k :: 0 <= k < |AllProfiles(t)| && AllProfiles(t)[k] == r.value
                                    && name !in Names(AllProfiles(t)[..k])
  {
    var ps := AllProfiles(t);
    var k := FirstIndexNamed(ps, name);
    NamedIffFound(ps, name);
    if k < |ps| then
      NamedIffFound(ps[..k], name);
      FirstIndexNamedIs(ps[..k], name, k);
      Some(ps[k])
    else None
  }

  /** Python's `add_profile`, as a value: append to the group's list, creating the list when the group is not a key. */
  function Add(t: GroupTable, p: AWSProfile): (r: GroupTable)
    ensures |r| == if IndexOfGroup(t, p.group) < |t| then |t| else |t| + 1
    ensures forall i :: 0 <= i < |t| ==> r[i].group == t[i].group
    ensures r[IndexOfGroup(t, p.group)].group == p.group
    ensures r[IndexOfGroup(t, p.group)].profiles == ProfilesOf(t, p.group) + [p]
  {
    var k := IndexOfGroup(t, p.group);
    if k < |t| then t[k := t[k].(profiles := t[k].profiles + [p])]
    else t + [GroupEntry(p.group, [p])]
  }

  lemma {:induction false} AddKeepsOtherGroups(t: GroupTable, p: AWSProfile)
    requires ValidTable(t)
    ensures forall g :: g != p.group ==> ProfilesOf(Add(t, p), g) == ProfilesOf(t, g)
  {
    var t' := Add(t, p);
    forall g | g != p.group
      ensures ProfilesOf(t', g) == ProfilesOf(t, g)
    {
      var kg := IndexOfGroup(t, g);
      if kg < |t| {
        IndexOfGroupIs(t', g, kg);
      } else {
        IndexOfGroupIs(t', g, |t'|);
      }
    }
  }

  lemma {:induction false} AddAppendsToExistingGroup(t: GroupTable, p: AWSProfile)
    requires ValidTable(t) && IndexOfGroup(t, p.group) < |t|
    ensures ValidTable(Add(t, p))
    ensures ProfilesOf(Add(t, p), p.group) == ProfilesOf(t, p.group) + [p]
    ensures p in AllProfiles(Add(t, p))
  {
    var t' := Add(t, p);
    var k := IndexOfGroup(t, p.group);
    assert forall i :: 0 <= i < |t| ==> t'[i].group == t[i].group;
    IndexOfGroupIs(t', p.group, k);
    AllProfilesSplit(t', k);
    assert t'[k].profiles[|t'[k].profiles| - 1] == p;
  }

  lemma {:induction false} AddAppendsNewGroup(t: GroupTable, p: AWSProfile)
    requires ValidTable(t) && IndexOfGroup(t, p.group) == |t|
    ensures ValidTable(Add(t, p))
    ensures ProfilesOf(Add(t, p), p.group) == ProfilesOf(t, p.group) + [p]
    ensures p in AllProfiles(Add(t, p))
  {
    var t' := Add(t, p);
    IndexOfGroupIs(t', p.group, |t|);
    AllProfilesAppend(t, [GroupEntry(p.group, [p])]);
    assert [GroupEntry(p.group, [p])][..0] == [];
  }

  /** Adding keeps keys distinct, puts the profile last in its group's list, changes no other group, and makes its name known. */
  lemma AddProfileSpec(t: GroupTable, p: AWSProfile)
    requires ValidTable(t)
    ensures ValidTable(Add(t, p))
    ensures ProfilesOf(Add(t, p), p.group) == ProfilesOf(t, p.group) + [p]
    ensures forall g :: g != p.group ==> ProfilesOf(Add(t, p), g) == ProfilesOf(t, g)
    ensures p.name in ProfileNames(Add(t, p))
  {
    AddKeepsOtherGroups(t, p);
    if IndexOfGroup(t, p.group) < |t| {
      AddAppendsToExistingGroup(t, p);
    } else {
      AddAppendsNewGroup(t, p);
    }
    var all := AllProfiles(Add(t, p));
    var i :| 0 <= i < |all| && all[i] == p;
    assert ProfileNames(Add(t, p))[i] == p.name;
  }

  /** Python's `list.pop(i)`, as a value. */
  function Delete<T>(s: seq<T>, i: nat): (r: seq<T>)
    requires i < |s|
    ensures |r| == |s| - 1
  {
    s[..i] + s[i + 1..]
  }

  datatype Removal = Removal(removed: bool, groups: GroupTable)

  /** Python's `remove_profile`, as a value: in dict order, pop the first profile with that name from its list. */
  function RemoveFirst(t: GroupTable, name: string): (r: Removal)
    ensures |r.groups| == |t|
    ensures !r.removed ==> r.groups == t
  {
    if t == [] then Removal(false, [])
    else
      var j := FirstIndexNamed(t[0].profiles, name);
      if j < |t[0].profiles| then Removal(true, [t[0].(profiles := Delete(t[0].profiles, j))] + t[1..])
      else
        var rest := RemoveFirst(t[1..], name);
        Removal(rest.removed, [t[0]] + rest.groups)
  }

  /**
   * Removal succeeds exactly when some profile has the name, and otherwise
   * leaves the table as it was. The keys never change.
   */
  lemma {:induction false} RemoveFirstSpec(t: GroupTable, name: string)
    ensures RemoveFirst(t, name).removed <==> name in ProfileNames(t)
    ensures !RemoveFirst(t, name).removed ==> RemoveFirst(t, name).groups == t
    ensures Groups(RemoveFirst(t, name).groups) == Groups(t)
  {
    NamedIffFound(AllProfiles(t), name);
    if t != [] {
      var e, rest := t[0], t[1..];
      assert t == [e] + rest;
      AllProfilesCons(e, rest);
      GroupsCons(e, rest);
      FirstIndexNamedAppend(e.profiles, AllProfiles(rest), name);
      var j := FirstIndexNamed(e.profiles, name);
      if j < |e.profiles| {
        GroupsCons(e.(profiles := Delete(e.profiles, j)), rest);
      } else {
        RemoveFirstSpec(rest, name);
        NamedIffFound(AllProfiles(rest), name);
        GroupsCons(e, RemoveFirst(rest, name).groups);
      }
    }
  }

  /** Whether a table holds each key once depends on its keys alone. */
  lemma SameKeysValid(t: GroupTable, u: GroupTable)
    requires Groups(t) == Groups(u) && ValidTable(t)
    ensures ValidTable(u)
  {
    forall i, j | 0 <= i < j < |u|
      ensures u[i].group != u[j].group
    {
      assert u[i].group == Groups(u)[i] == t[i].group;
      assert u[j].group == Groups(u)[j] == t[j].group;
    }
  }

  /** The removal when the first group holds the name. */
  lemma {:induction false} RemoveInFirstGroup(t: GroupTable, name: string)
    requires t != [] && FirstIndexNamed(t[0].profiles, name) < |t[0].profiles|
    ensures FirstIndexNamed(AllProfiles(t), name) == FirstIndexNamed(t[0].profiles, name) < |AllProfiles(t)|
    ensures AllProfiles(RemoveFirst(t, name).groups) == Delete(AllProfiles(t), FirstIndexNamed(AllProfiles(t), name))
  {
    var e, rest := t[0], t[1..];
    assert t == [e] + rest;
    AllProfilesCons(e, rest);
    FirstIndexNamedAppend(e.profiles, AllProfiles(rest), name);
    var j := FirstIndexNamed(e.profiles, name);
    AllProfilesCons(e.(profiles := Delete(e.profiles, j)), rest);
    DeleteInPrefix(e.profiles, AllProfiles(rest), j);
  }

  /** The removal when a later group holds the name, given the removal from the later groups. */
  lemma {:induction false} RemoveInLaterGroup(t: GroupTable, name: string)
    requires t != [] && FirstIndexNamed(t[0].profiles, name) == |t[0].profiles|
    requires FirstIndexNamed(AllProfiles(t[1..]), name) < |AllProfiles(t[1..])|
    requires AllProfiles(RemoveFirst(t[1..], name).groups)
          == Delete(AllProfiles(t[1..]), FirstIndexNamed(AllProfiles(t[1..]), name))
    ensures FirstIndexNamed(AllProfiles(t), name) < |AllProfiles(t)|
    ensures AllProfiles(RemoveFirst(t, name).groups) == Delete(AllProfiles(t), FirstIndexNamed(AllProfiles(t), name))
  {
    var e, rest := t[0], t[1..];
    var a, b := e.profiles, AllProfiles(rest);
    var kb := FirstIndexNamed(b, name);
    var removed := RemoveFirst(rest, name).groups;
    assert AllProfiles(t) == a + b by {
      assert t == [e] + rest;
      AllProfilesCons(e, rest);
    }
    assert FirstIndexNamed(AllProfiles(t), name) == |a| + kb by {
      FirstIndexNamedAppend(a, b, name);
    }
    assert AllProfiles(RemoveFirst(t, name).groups) == a + Delete(b, kb) by {
      assert RemoveFirst(t, name).groups == [e] + removed;
      AllProfilesCons(e, removed);
    }
    DeleteShifted(AllProfiles(t), a, b, kb, FirstIndexNamed(AllProfiles(t), name), AllProfiles(RemoveFirst(t, name).groups));
  }

  lemma DeleteShifted<T>(all: seq<T>, a: seq<T>, b: seq<T>, kb: nat, k: nat, result: seq<T>)
    requires all == a + b && kb < |b| && k == |a| + kb && result == a + Delete(b, kb)
    ensures k < |all| && result == Delete(all, k)
  {
    DeleteInSuffix(a, b, kb);
  }

  /** A removal deletes the first profile with the name from the flattened list, and nothing else. */
  lemma {:induction false} RemoveFirstDeletes(t: GroupTable, name: string)
    requires name in ProfileNames(t)
    ensures RemoveFirst(t, name).removed
    ensures FirstIndexNamed(AllProfiles(t), name) < |AllProfiles(t)|
    ensures AllProfiles(RemoveFirst(t, name).groups) == Delete(AllProfiles(t), FirstIndexNamed(AllProfiles(t), name))
  {
    RemoveFirstSpec(t, name);
    NamedIffFound(AllProfiles(t), name);
    if FirstIndexNamed(t[0].profiles, name) < |t[0].profiles| {
      RemoveInFirstGroup(t, name);
    } else {
      var e, rest := t[0], t[1..];
      assert t == [e] + rest;
      AllProfilesCons(e, rest);
      FirstIndexNamedAppend(e.profiles, AllProfiles(rest), name);
      NamedIffFound(AllProfiles(rest), name);
      RemoveFirstDeletes(rest, name);
      RemoveInLaterGroup(t, name);
    }
  }

  lemma GroupsCons(e: GroupEntry, t: GroupTable)
    ensures Groups([e] + t) == [e.group] + Groups(t)
  {
  }

  lemma DeleteInPrefix<T>(a: seq<T>, b: seq<T>, j: nat)
    requires j < |a|
    ensures Delete(a + b, j) == Delete(a, j) + b
  {
    assert (a + b)[..j] == a[..j];
    assert (a + b)[j + 1..] == a[j + 1..] + b;
  }

  lemma DeleteInSuffix<T>(a: seq<T>, b: seq<T>, k: nat)
    requires k < |b|
    ensures Delete(a + b, |a| + k) == a + Delete(b, k)
  {
    assert (a + b)[..|a| + k] == a + b[..k];
    assert (a + b)[|a| + k + 1..] == b[k + 1..];
  }

  /** Where a nested search that found the first match at group `i`, position `j`, stands relative to `RemoveFirst`. */
  lemma {:induction false} RemoveFoundAt(t: GroupTable, name: string, i: nat, j: nat)
    requires i < |t| && j < |t[i].profiles|
    requires t[i].profiles[j].name == name
    requires name !in ProfileNames(t[..i])
    requires name !in Names(t[i].profiles[..j])
    ensures RemoveFirst(t, name) == Removal(true, t[i := t[i].(profiles := Delete(t[i].profiles, j))])
  {
    if i == 0 {
      FirstIndexNamedIs(t[0].profiles, name, j) by {
        forall k | 0 <= k < j ensures t[0].profiles[k].name != name {
          assert Names(t[0].profiles[..j])[k] == t[0].profiles[k].name;
        }
      }
      assert t == [t[0]] + t[1..];
    } else {
      var u := t[1..][..i - 1];
      assert t[..i] == [t[0]] + u;
      AbsentFromCons(t[0], u, name);
      RemoveFoundAt(t[1..], name, i - 1, j);
      var x := t[i].(profiles := Delete(t[i].profiles, j));
      assert RemoveFirst(t, name).groups == [t[0]] + t[1..][i - 1 := x];
      assert [t[0]] + t[1..][i - 1 := x] == t[i := x];
    }
  }

  /** A name absent from a table is absent from its first group and from the rest. */
  lemma AbsentFromCons(e: GroupEntry, u: GroupTable, name: string)
    requires name !in ProfileNames([e] + u)
    ensures FirstIndexNamed(e.profiles, name) == |e.profiles|
    ensures name !in ProfileNames(u)
  {
    AllProfilesCons(e, u);
    var all := ProfileNames([e] + u);
    forall m | 0 <= m < |e.profiles|
      ensures e.profiles[m].name != name
    {
      assert all[m] == e.profiles[m].name;
    }
    FirstIndexNamedIs(e.profiles, name, |e.profiles|);
    forall m | 0 <= m < |AllProfiles(u)|
      ensures AllProfiles(u)[m].name != name
    {
      assert all[|e.profiles| + m] == AllProfiles(u)[m].name;
    }
  }

  /** When no profile has the name, `RemoveFirst` changes nothing. */
  lemma NothingToRemove(t: GroupTable, name: string)
    requires name !in ProfileNames(t)
    ensures RemoveFirst(t, name) == Removal(false, t)
  {
    RemoveFirstSpec(t, name);
  }

  /** The profiles a fresh installation starts with: two dev, three np and three pd profiles. */
  const DefaultProfiles: GroupTable := [
    GroupEntry(Dev, [
      AWSProfile("aws-dev-eu", Dev, "eu-west-1", Some("Development EU")),
      AWSProfile("aws-dev-sg", Dev, "ap-southeast-1", Some("Development SG"))]),
    GroupEntry(NonProduction, [
      AWSProfile("kds-ets-np", NonProduction, "us-east-1", Some("KDS ETS Non-Production")),
      AWSProfile("kds-gps-np", NonProduction, "us-east-1", Some("KDS GPS Non-Production")),
      AWSProfile("kds-iss-np", NonProduction, "us-east-1", Some("KDS ISS Non-Production"))]),
    GroupEntry(Production, [
      AWSProfile("kds-ets-pd", Production, "us-east-1", Some("KDS ETS Production")),
      AWSProfile("kds-gps-pd", Production, "us-east-1", Some("KDS GPS Production")),
      AWSProfile("kds-iss-pd", Production, "us-east-1", Some("KDS ISS Production"))])
  ]

  /** The defaults have distinct keys and 2 dev, 3 np and 3 pd profiles, each in its own group. */
  lemma DefaultProfilesShape()
    ensures ValidTable(DefaultProfiles)
    ensures |ProfilesOf(DefaultProfiles, Dev)| == 2
    ensures |ProfilesOf(DefaultProfiles, NonProduction)| == 3
    ensures |ProfilesOf(DefaultProfiles, Production)| == 3
    ensures forall i, k :: 0 <= i < |DefaultProfiles| && 0 <= k < |DefaultProfiles[i].profiles| ==>
              DefaultProfiles[i].profiles[k].group == DefaultProfiles[i].group
  {
  }

  /** The JSON file: absent, present but not valid JSON, or holding a profile-groups object. */
  datatype ConfigFile = Missing | Corrupt | Saved(groups: GroupTable)

  /** What `load_config` leaves in `profile_groups` for a given file. */
  function LoadedGroups(file: ConfigFile): (t: GroupTable)
    ensures file.Saved? ==> t == file.groups
    ensures !file.Saved? ==> t == DefaultProfiles && ValidTable(t)
  {
    match file
    case Saved(groups) => groups
    case _ => DefaultProfiles
  }

  /** The `Config` class: the registry and the file it is saved to. */
  class Config {
    var groups: GroupTable
    var file: ConfigFile

    ghost predicate Valid()
      reads this
    {
      ValidTable(groups)
    }

    /** Reads `file`; a missing file is created with the defaults, one that is not valid JSON is left as it is. */
    constructor (file: ConfigFile)
      requires file.Saved? ==> ValidTable(file.groups)
      ensures Valid()
      ensures groups == LoadedGroups(file)
      ensures this.file == if file.Missing? then Saved(DefaultProfiles) else file
    {
      this.file := file;
      groups := [];
      new;
      LoadConfig();
    }

    method LoadConfig()
      requires file.Saved? ==> ValidTable(file.groups)
      modifies this
      ensures Valid()
      ensures groups == LoadedGroups(old(file))
      ensures file == if old(file).Missing? then Saved(groups) else old(file)
    {
      DefaultProfilesShape();
      match file
      case Saved(g) =>
        groups := g;
      case Corrupt =>
        groups := DefaultProfiles;
      case Missing =>
        groups := DefaultProfiles;
        SaveConfig();
    }

    method SaveConfig()
      modifies this`file
      ensures file == Saved(groups)
    {
      file := Saved(groups);
    }

    method GetProfileNames() returns (names: seq<string>)
      ensures names == ProfileNames(groups)
    {
      names := [];
      var i := 0;
      while i < |groups|
        invariant 0 <= i <= |groups|
        invariant names == ProfileNames(groups[..i])
      {
        assert groups[..i + 1][..i] == groups[..i];
        names := names + Names(groups[i].profiles);
        i := i + 1;
      }
      assert groups[..|groups|] == groups;
    }

    method GetProfileByName(name: string) returns (r: Option<AWSProfile>)
      ensures r == FindByName(groups, name)
    {
      var i := 0;
      while i < |groups|
        invariant 0 <= i <= |groups|
        invariant name !in ProfileNames(groups[..i])
      {
        var profiles := groups[i].profiles;
        var j := 0;
        while j < |profiles|
          invariant 0 <= j <= |profiles|
          invariant name !in Names(profiles[..j])
        {
          if profiles[j].name == name {
            FoundAt(groups, name, i, j);
            return Some(profiles[j]);
          }
          assert Names(profiles[..j + 1]) == Names(profiles[..j]) + [profiles[j].name];
          j := j + 1;
        }
        assert groups[..i + 1][..i] == groups[..i];
        assert profiles[..j] == profiles;
        assert ProfileNames(groups[..i + 1]) == ProfileNames(groups[..i]) + Names(profiles);
        i := i + 1;
      }
      assert groups[..i] == groups;
      return None;
    }

    method AddProfile(profile: AWSProfile)
      requires Valid()
      modifies this
      ensures Valid()
      ensures groups == Add(old(groups), profile)
      ensures file == Saved(groups)
    {
      AddProfileSpec(groups, profile);
      ghost var before := groups;
      var k := IndexOfGroup(groups, profile.group);
      if k == |groups| {
        groups := groups + [GroupEntry(profile.group, [])];
        groups := groups[k := groups[k].(profiles := groups[k].profiles + [profile])];
        assert groups == before + [GroupEntry(profile.group, [profile])];
      } else {
        groups := groups[k := groups[k].(profiles := groups[k].profiles + [profile])];
      }
      assert groups == Add(before, profile);
      SaveConfig();
    }

    method RemoveProfile(name: string) returns (removed: bool)
      requires Valid()
      modifies this
      ensures Valid()
      ensures Removal(removed, groups) == RemoveFirst(old(groups), name)
      ensures file == if removed then Saved(groups) else old(file)
    {
      var i := 0;
      while i < |groups|
        invariant 0 <= i <= |groups|
        invariant groups == old(groups) && file == old(file)
        invariant name !in ProfileNames(groups[..i])
      {
        var profiles := groups[i].profiles;
        var j := 0;
        while j < |profiles|
          invariant 0 <= j <= |profiles|
          invariant name !in Names(profiles[..j])
        {
          if profiles[j].name == name {
            RemoveFoundAt(groups, name, i, j);
            RemoveFirstSpec(groups, name);
            SameKeysValid(groups, RemoveFirst(groups, name).groups);
            groups := groups[i := groups[i].(profiles := Delete(profiles, j))];
            SaveConfig();
            return true;
          }
          assert Names(profiles[..j + 1]) == Names(profiles[..j]) + [profiles[j].name];
          j := j + 1;
        }
        assert groups[..i + 1][..i] == groups[..i];
        assert profiles[..j] == profiles;
        assert ProfileNames(groups[..i + 1]) == ProfileNames(groups[..i]) + Names(profiles);
        i := i + 1;
      }
      assert groups[..i] == groups;
      NothingToRemove(groups, name);
      return false;
    }
  }

  /** Where a nested search that found the first match at group `i`, position `j`, stands relative to `FindByName`. */
  lemma FoundAt(t: GroupTable, name: string, i: nat, j: nat)
    requires i < |t| && j < |t[i].profiles|
    requires t[i].profiles[j].name == name
    requires name !in ProfileNames(t[..i])
    requires name !in Names(t[i].profiles[..j])
    ensures FindByName(t, name) == Some(t[i].profiles[j])
  {
    var before := AllProfiles(t[..i]);
    AllProfilesSplit(t, i);
    var ps := AllProfiles(t);
    var k := |before| + j;
    assert ps[k] == t[i].profiles[j];
    FirstIndexNamedIs(ps, name, k) by {
      forall m | 0 <= m < k ensures ps[m].name != name {
        if m < |before| {
          assert ps[m] == before[m];
          assert ProfileNames(t[..i])[m] == before[m].name;
        } else {
          assert ps[m] == t[i].profiles[m - |before|];
          assert Names(t[i].profiles[..j])[m - |before|] == ps[m].name;
        }
      }
    }
  }
}
