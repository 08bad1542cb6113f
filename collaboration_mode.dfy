// Collaboration modes: the check that a mode's member list and its member
// details name the same people, and the store calls it guards.

module CollaborationMode {
  import opened Common

  /** A member's details; only the ID it resolves to matters here. */
  datatype MemberInfo = MemberInfo(id: string)

  datatype CollaborationMode = CollaborationMode(
    projectName: string,
    name: string,
    members: seq<string>,
    memberInfo: seq<MemberInfo>)

  /** The set of IDs the member details resolve to. */
  function InfoIDs(infos: seq<MemberInfo>): set<string>
  {
    set m | m in infos :: m.id
  }

  /**
   * validateMemberInfo: the two lists must be equally long and name the same
   * set of IDs; within equal lengths, repetitions are not compared.
   */
  predicate ValidMemberInfo(cm: CollaborationMode)
  {
    |cm.members| == |cm.memberInfo| && (set m | m in cm.members) == InfoIDs(cm.memberInfo)
  }

  /**
   * The check in both directions: it holds exactly when the lengths agree,
   * every member has details with its ID, and every detail's ID is a member.
   */
  lemma ValidMemberInfoMeans(cm: CollaborationMode)
    ensures ValidMemberInfo(cm) <==>
      |cm.members| == |cm.memberInfo|
      && (forall i :: 0 <= i < |cm.members| ==> exists j :: 0 <= j < |cm.memberInfo| && cm.memberInfo[j].id == cm.members[i])
      && (forall j :: 0 <= j < |cm.memberInfo| ==> cm.memberInfo[j].id in cm.members)
  {
    var ms := set m | m in cm.members;
    var ids := InfoIDs(cm.memberInfo);
    if |cm.members| == |cm.memberInfo|
       && (forall i :: 0 <= i < |cm.members| ==> exists j :: 0 <= j < |cm.memberInfo| && cm.memberInfo[j].id == cm.members[i])
       && (forall j :: 0 <= j < |cm.memberInfo| ==> cm.memberInfo[j].id in cm.members)
    {
      forall x | x in ms ensures x in ids {
        var i :| 0 <= i < |cm.members| && cm.members[i] == x;
        var j :| 0 <= j < |cm.memberInfo| && cm.memberInfo[j].id == cm.members[i];
        assert cm.memberInfo[j] in cm.memberInfo;
      }
      forall x | x in ids ensures x in ms {
        var m :| m in cm.memberInfo && m.id == x;
        var j :| 0 <= j < |cm.memberInfo| && cm.memberInfo[j] == m;
      }
    }
    if ValidMemberInfo(cm) {
      forall i | 0 <= i < |cm.members|
        ensures exists j :: 0 <= j < |cm.memberInfo| && cm.memberInfo[j].id == cm.members[i]
      {
        assert cm.members[i] in ms;
        var m :| m in cm.memberInfo && m.id == cm.members[i];
        var j :| 0 <= j < |cm.memberInfo| && cm.memberInfo[j] == m;
      }
      forall j | 0 <= j < |cm.memberInfo| ensures cm.memberInfo[j].id in cm.members {
        assert cm.memberInfo[j] in cm.memberInfo;
        assert cm.memberInfo[j].id in ids;
      }
    }
  }

  /** Repetitions are tolerated when the lengths agree: ["a", "a", "b"] matches details for a, b, b. */
  lemma RepetitionsTolerated()
    ensures ValidMemberInfo(CollaborationMode("p", "m", ["a", "a", "b"],
                                              [MemberInfo("a"), MemberInfo("b"), MemberInfo("b")]))
    ensures !ValidMemberInfo(CollaborationMode("p", "m", ["a", "b"], [MemberInfo("a")]))
  {
    var cm := CollaborationMode("p", "m", ["a", "a", "b"], [MemberInfo("a"), MemberInfo("b"), MemberInfo("b")]);
    assert (set m | m in cm.members) == {"a", "b"};
    assert cm.memberInfo[0] in cm.memberInfo && cm.memberInfo[1] in cm.memberInfo;
    assert InfoIDs(cm.memberInfo) == {"a", "b"};
  }

  const MismatchError := "members and member_info not match"

  /** A mode is stored under its project and name. */
  datatype ModeKey = ModeKey(projectName: string, name: string)

  function KeyOf(cm: CollaborationMode): ModeKey
  {
    ModeKey(cm.projectName, cm.name)
  }

  /**
   * The collaboration-mode and collaboration-instance collections: the modes
   * by key, and the modes whose instances had their revision reset, in
   * order. Store failures are given to each call as `fault`.
   */
  class CollaborationStore {
    var modes: map<ModeKey, CollaborationMode>
    var resets: seq<ModeKey>

    constructor ()
      ensures modes == map[] && resets == []
    {
      modes := map[];
      resets := [];
    }

    /** Write a mode under its key. */
    method Save(cm: CollaborationMode, fault: Option<string>) returns (err: Option<string>)
      modifies this
      ensures err == fault
      ensures resets == old(resets)
      ensures modes == if fault.None? then old(modes)[KeyOf(cm) := cm] else old(modes)
    {
      err := fault;
      if fault.None? {
        modes := modes[KeyOf(cm) := cm];
      }
    }

    /** Remove a mode. */
    method Remove(key: ModeKey, fault: Option<string>) returns (err: Option<string>)
      modifies this
      ensures err == fault
      ensures resets == old(resets)
      ensures modes == if fault.None? then old(modes) - {key} else old(modes)
    {
      err := fault;
      if fault.None? {
        modes := modes - {key};
      }
    }

    /** Reset the revision of the mode's instances. */
    method ResetRevision(key: ModeKey, fault: Option<string>) returns (err: Option<string>)
      modifies this
      ensures err == fault
      ensures modes == old(modes)
      ensures resets == if fault.None? then old(resets) + [key] else old(resets)
    {
      err := fault;
      if fault.None? {
        resets := resets + [key];
      }
    }
  }

  /** CreateCollaborationMode and UpdateCollaborationMode: a mode whose members do not match is refused before the store is touched. */
  method SaveCollaborationMode(store: CollaborationStore, cm: CollaborationMode, fault: Option<string>)
    returns (err: Option<string>)
    modifies store
    ensures !ValidMemberInfo(cm) ==> err == Some(MismatchError) && store.modes == old(store.modes)
    ensures ValidMemberInfo(cm) ==> err == fault
    ensures ValidMemberInfo(cm) ==>
      store.modes == if fault.None? then old(store.modes)[KeyOf(cm) := cm] else old(store.modes)
    ensures store.resets == old(store.resets)
  {
    if !ValidMemberInfo(cm) {
      return Some(MismatchError);
    }
    err := store.Save(cm, fault);
  }

  /** DeleteCollaborationMode: the instances' revision is reset only once the mode is gone. */
  method DeleteCollaborationMode(store: CollaborationStore, projectName: string, name: string,
                                 deleteFault: Option<string>, resetFault: Option<string>)
    returns (err: Option<string>)
    modifies store
    ensures deleteFault.Some? ==> err == deleteFault && store.modes == old(store.modes) && store.resets == old(store.resets)
    ensures deleteFault.None? ==>
      err == resetFault
      && store.modes == old(store.modes) - {ModeKey(projectName, name)}
      && store.resets == old(store.resets) + (if resetFault.None? then [ModeKey(projectName, name)] else [])
  {
    var key := ModeKey(projectName, name);
    err := store.Remove(key, deleteFault);
    if err.Some? {
      return;
    }
    err := store.ResetRevision(key, resetFault);
  }

  /**
   * GetCollaborationMode: a missing mode is not an error, it is reported as
   * not found; any other lookup failure (`fault`) is returned.
   */
  method GetCollaborationMode(store: CollaborationStore, projectName: string, name: string, fault: Option<string>)
    returns (mode: Option<CollaborationMode>, found: bool, err: Option<string>)
    ensures found <==> mode.Some?
    ensures fault.Some? ==> mode.None? && err == fault
    ensures fault.None? ==> err.None? && mode == (if ModeKey(projectName, name) in store.modes
                                                  then Some(store.modes[ModeKey(projectName, name)]) else None)
  {
    var key := ModeKey(projectName, name);
    if fault.Some? {
      return None, false, fault;
    }
    if key !in store.modes {
      return None, false, None;
    }
    return Some(store.modes[key]), true, None;
  }
}
