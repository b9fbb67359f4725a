/**
 * JavaClassChangesComputer: the change set between two classpath snapshots of
 * Java classes.  Classes are matched by ClassId; a class whose class-level ABI
 * hash differs is reported whole, otherwise its fields and methods are
 * compared by ABI hash and the names of the members that appear or disappear
 * are reported, together with the SAM lookup name.
 *
 * ChangeSet and its Collector are not part of this model; the collector is
 * modelled as the set of changed classes and the set of (class, member name)
 * pairs reported so far.
 */
module JavaClassChanges {

  type ClassId = string

  /** A field or method: its name and its ABI hash (a Long). */
  datatype AbiSnapshot = AbiSnapshot(name: string, abiHash: int)

  /** A regular Java class: its ClassId, the ABI hash of the class without its
      members (classAbiExcludingMembers.abiHash), its fields and its methods. */
  datatype RegularJavaClassSnapshot =
    RegularJavaClassSnapshot(classId: ClassId, classAbiHash: int,
                             fieldsAbi: seq<AbiSnapshot>, methodsAbi: seq<AbiSnapshot>)

  /** The changed classes and the changed (class, member name) pairs. */
  datatype ChangeSet = ChangeSet(changedClasses: set<ClassId>, changedClassMembers: set<(ClassId, string)>)

  /** SAM_LOOKUP_NAME.asString(): the name under which SAM-constructor lookups
      of a class are recorded (its definition is not part of this model). */
  const SamLookupName: string := "<SAM-CONSTRUCTOR>"

  function ClassIdOf(c: RegularJavaClassSnapshot): ClassId { c.classId }

  function AbiHashOf(a: AbiSnapshot): int { a.abiHash }

  /** The keys of a list under `key`. */
  function KeysOf<K(==), V>(s: seq<V>, key: V -> K): set<K>
  {
    set i | 0 <= i < |s| :: key(s[i])
  }

  /** Whether `s[i]` is the last element of `s` with its key. */
  predicate LastWithKey<K(==), V>(s: seq<V>, key: V -> K, i: nat)
    requires i < |s|
  {
    forall j | i < j < |s| :: key(s[j]) != key(s[i])
  }

  /** Kotlin's associateBy: a map from each key to the last element with that key. */
  function AssociateBy<K(==), V>(s: seq<V>, key: V -> K): (m: map<K, V>)
    ensures m.Keys == KeysOf(s, key)
    ensures forall k | k in m :: key(m[k]) == k && m[k] in s
    ensures forall i | 0 <= i < |s| && LastWithKey(s, key, i) :: m[key(s[i])] == s[i]
  {
    if s == [] then map[]
    else
      KeysOfSnoc(s, key);
      AssociateBy(s[..|s| - 1], key)[key(s[|s| - 1]) := s[|s| - 1]]
  }

  lemma KeysOfSnoc<K, V>(s: seq<V>, key: V -> K)
    requires s != []
    ensures KeysOf(s, key) == KeysOf(s[..|s| - 1], key) + {key(s[|s| - 1])}
    ensures forall i | 0 <= i < |s| - 1 :: s[..|s| - 1][i] == s[i]
  {
    var init := s[..|s| - 1];
    forall k | k in KeysOf(s, key) ensures k in KeysOf(init, key) + {key(s[|s| - 1])} {
      var i :| 0 <= i < |s| && key(s[i]) == k;
      if i < |init| {
        assert key(init[i]) == k;
      }
    }
  }

  /** The (class, member name) pairs of the given names. */
  function Pairs(classId: ClassId, names: set<string>): set<(ClassId, string)>
  {
    set n | n in names :: (classId, n)
  }

  /** The names of the members whose ABI hash is a key of `currentHashes` but
      not of `previousHashes`, named from `currentHashes`. */
  function AddedMemberNames(currentHashes: map<int, AbiSnapshot>, previousHashes: map<int, AbiSnapshot>): set<string>
  {
    set h | h in currentHashes.Keys - previousHashes.Keys :: currentHashes[h].name
  }

  /** The member-level changes of one member list of class `classId`: the
      names of added members, the names of removed members (the added ones
      with the two lists swapped), and the SAM lookup name when anything was
      added or removed. */
  function MemberChanges(classId: ClassId, current: seq<AbiSnapshot>, previous: seq<AbiSnapshot>): set<(ClassId, string)>
  {
    var currentHashes := AssociateBy(current, AbiHashOf);
    var previousHashes := AssociateBy(previous, AbiHashOf);
    Pairs(classId, AddedMemberNames(currentHashes, previousHashes))
    + Pairs(classId, AddedMemberNames(previousHashes, currentHashes))
    + (if currentHashes.Keys != previousHashes.Keys then {(classId, SamLookupName)} else {})
  }

  /** The changes of a class present in both snapshots: the whole class when
      its class-level hash differs, its field and method changes otherwise. */
  function ClassChanges(current: RegularJavaClassSnapshot, previous: RegularJavaClassSnapshot): ChangeSet
  {
    if current.classAbiHash != previous.classAbiHash then ChangeSet({current.classId}, {})
    else ChangeSet({}, MemberChanges(current.classId, current.fieldsAbi, previous.fieldsAbi)
                       + MemberChanges(current.classId, current.methodsAbi, previous.methodsAbi))
  }

  /** The class-level changes among the classes `ids` present in both maps. */
  function ChangedClassesAmong(currentClasses: map<ClassId, RegularJavaClassSnapshot>,
                               previousClasses: map<ClassId, RegularJavaClassSnapshot>,
                               ids: set<ClassId>): set<ClassId>
  {
    set id | id in ids && id in currentClasses && id in previousClasses
                       && currentClasses[id].classAbiHash != previousClasses[id].classAbiHash
  }

  /** The member-level changes among the classes `ids` present in both maps. */
  function ChangedMembersAmong(currentClasses: map<ClassId, RegularJavaClassSnapshot>,
                               previousClasses: map<ClassId, RegularJavaClassSnapshot>,
                               ids: set<ClassId>): set<(ClassId, string)>
  {
    set id, p | id in ids && id in currentClasses && id in previousClasses
                && p in ClassChanges(currentClasses[id], previousClasses[id]).changedClassMembers :: p
  }

  /** The change set compute returns. */
  function Changes(current: seq<RegularJavaClassSnapshot>, previous: seq<RegularJavaClassSnapshot>): ChangeSet
  {
    var currentClasses := AssociateBy(current, ClassIdOf);
    var previousClasses := AssociateBy(previous, ClassIdOf);
    var added := currentClasses.Keys - previousClasses.Keys;
    var removed := previousClasses.Keys - currentClasses.Keys;
    var common := currentClasses.Keys - added;
    ChangeSet(added + removed + ChangedClassesAmong(currentClasses, previousClasses, common),
              ChangedMembersAmong(currentClasses, previousClasses, common))
  }

  /** ChangeSet.Collector: accumulates changed classes and members. */
  class Collector {
    var changedClasses: set<ClassId>
    var changedClassMembers: set<(ClassId, string)>

    constructor()
      ensures changedClasses == {} && changedClassMembers == {}
    {
      changedClasses := {};
      changedClassMembers := {};
    }

    method AddChangedClass(classId: ClassId)
      modifies this
      ensures changedClasses == old(changedClasses) + {classId}
      ensures changedClassMembers == old(changedClassMembers)
    {
      changedClasses := changedClasses + {classId};
    }

    method AddChangedClasses(classIds: set<ClassId>)
      modifies this
      ensures changedClasses == old(changedClasses) + classIds
      ensures changedClassMembers == old(changedClassMembers)
    {
      changedClasses := changedClasses + classIds;
    }

    method AddChangedClassMember(classId: ClassId, name: string)
      modifies this
      ensures changedClasses == old(changedClasses)
      ensures changedClassMembers == old(changedClassMembers) + {(classId, name)}
    {
      changedClassMembers := changedClassMembers + {(classId, name)};
    }

    method AddChangedClassMembers(classId: ClassId, names: set<string>)
      modifies this
      ensures changedClasses == old(changedClasses)
      ensures changedClassMembers == old(changedClassMembers) + Pairs(classId, names)
    {
      changedClassMembers := changedClassMembers + Pairs(classId, names);
    }

    function GetChanges(): ChangeSet
      reads this
    {
      ChangeSet(changedClasses, changedClassMembers)
    }
  }

  /** collectClassMemberChanges */
  method CollectClassMemberChanges(classId: ClassId, currentMemberSnapshots: seq<AbiSnapshot>,
                                   previousMemberSnapshots: seq<AbiSnapshot>, changes: Collector)
    modifies changes
    ensures changes.changedClasses == old(changes.changedClasses)
    ensures changes.changedClassMembers
         == old(changes.changedClassMembers) + MemberChanges(classId, currentMemberSnapshots, previousMemberSnapshots)
  {
    var currentMemberHashes := AssociateBy(currentMemberSnapshots, AbiHashOf);
    var previousMemberHashes := AssociateBy(previousMemberSnapshots, AbiHashOf);
    var addedMembers := currentMemberHashes.Keys - previousMemberHashes.Keys;
    var removedMembers := previousMemberHashes.Keys - currentMemberHashes.Keys;
    changes.AddChangedClassMembers(classId, AddedMemberNames(currentMemberHashes, previousMemberHashes));
    changes.AddChangedClassMembers(classId, AddedMemberNames(previousMemberHashes, currentMemberHashes));
    if addedMembers != {} || removedMembers != {} {
      changes.AddChangedClassMember(classId, SamLookupName);
    } else {
      assert currentMemberHashes.Keys == previousMemberHashes.Keys;
    }
  }

  /** collectClassChanges: `check` demands that both snapshots have the same ClassId. */
  method CollectClassChanges(currentClassSnapshot: RegularJavaClassSnapshot,
                             previousClassSnapshot: RegularJavaClassSnapshot, changes: Collector)
    requires currentClassSnapshot.classId == previousClassSnapshot.classId
    modifies changes
    ensures changes.changedClasses
         == old(changes.changedClasses) + ClassChanges(currentClassSnapshot, previousClassSnapshot).changedClasses
    ensures changes.changedClassMembers
         == old(changes.changedClassMembers) + ClassChanges(currentClassSnapshot, previousClassSnapshot).changedClassMembers
  {
    var classId := currentClassSnapshot.classId;
    if currentClassSnapshot.classAbiHash != previousClassSnapshot.classAbiHash {
      changes.AddChangedClass(classId);
    } else {
      CollectClassMemberChanges(classId, currentClassSnapshot.fieldsAbi, previousClassSnapshot.fieldsAbi, changes);
      CollectClassMemberChanges(classId, currentClassSnapshot.methodsAbi, previousClassSnapshot.methodsAbi, changes);
    }
  }

  /** A class in both maps, stored under its own ClassId in each. */
  predicate Common(currentClasses: map<ClassId, RegularJavaClassSnapshot>,
                   previousClasses: map<ClassId, RegularJavaClassSnapshot>, id: ClassId)
  {
    && id in currentClasses && id in previousClasses
    && currentClasses[id].classId == id && previousClasses[id].classId == id
  }

  /** The forEach of compute: compares every class of `ids`, in any order. */
  method CollectCommonClassChanges(currentClasses: map<ClassId, RegularJavaClassSnapshot>,
                                   previousClasses: map<ClassId, RegularJavaClassSnapshot>,
                                   ids: set<ClassId>, changes: Collector)
    requires forall id | id in ids :: Common(currentClasses, previousClasses, id)
    modifies changes
    ensures changes.changedClasses
         == old(changes.changedClasses) + ChangedClassesAmong(currentClasses, previousClasses, ids)
    ensures changes.changedClassMembers
         == old(changes.changedClassMembers) + ChangedMembersAmong(currentClasses, previousClasses, ids)
  {
    var remaining := ids;
    AmongNone(currentClasses, previousClasses);
    while remaining != {}
      invariant remaining <= ids
      invariant changes.changedClasses
             == old(changes.changedClasses) + ChangedClassesAmong(currentClasses, previousClasses, ids - remaining)
      invariant changes.changedClassMembers
             == old(changes.changedClassMembers) + ChangedMembersAmong(currentClasses, previousClasses, ids - remaining)
      decreases remaining
    {
      var id :| id in remaining;
      ghost var done := ids - remaining;
      assert Common(currentClasses, previousClasses, id);
      AmongAddsOne(currentClasses, previousClasses, done, id);
      CollectClassChanges(currentClasses[id], previousClasses[id], changes);
      remaining := remaining - {id};
      assert ids - remaining == done + {id};
      SetUnionAssociates(old(changes.changedClasses), ChangedClassesAmong(currentClasses, previousClasses, done),
                         ClassChanges(currentClasses[id], previousClasses[id]).changedClasses);
      SetUnionAssociates(old(changes.changedClassMembers), ChangedMembersAmong(currentClasses, previousClasses, done),
                         ClassChanges(currentClasses[id], previousClasses[id]).changedClassMembers);
    }
  }

  /** compute: added and removed classes by ClassId, then every class present
      in both compared pairwise. */
  method Compute(currentJavaClassSnapshots: seq<RegularJavaClassSnapshot>,
                 previousJavaClassSnapshots: seq<RegularJavaClassSnapshot>) returns (r: ChangeSet)
    ensures r == Changes(currentJavaClassSnapshots, previousJavaClassSnapshots)
  {
    var currentClasses := AssociateBy(currentJavaClassSnapshots, ClassIdOf);
    var previousClasses := AssociateBy(previousJavaClassSnapshots, ClassIdOf);
    var addedClasses := currentClasses.Keys - previousClasses.Keys;
    var removedClasses := previousClasses.Keys - currentClasses.Keys;
    var unchangedOrModifiedClasses := currentClasses.Keys - addedClasses;
    var collector := new Collector();
    collector.AddChangedClasses(addedClasses);
    collector.AddChangedClasses(removedClasses);
    assert collector.changedClasses == addedClasses + removedClasses && collector.changedClassMembers == {};
    CollectCommonClassChanges(currentClasses, previousClasses, unchangedOrModifiedClasses, collector);
    r := collector.GetChanges();
    assert r.changedClassMembers == ChangedMembersAmong(currentClasses, previousClasses, unchangedOrModifiedClasses);
  }

  lemma SetUnionAssociates<T>(a: set<T>, b: set<T>, c: set<T>)
    ensures (a + b) + c == a + (b + c)
  {
  }

  /** Comparing no class adds nothing. */
  lemma AmongNone(currentClasses: map<ClassId, RegularJavaClassSnapshot>,
                  previousClasses: map<ClassId, RegularJavaClassSnapshot>)
    ensures ChangedClassesAmong(currentClasses, previousClasses, {}) == {}
    ensures ChangedMembersAmong(currentClasses, previousClasses, {}) == {}
  {
  }

  /** Comparing one more class adds exactly that class's changes. */
  lemma AmongAddsOne(currentClasses: map<ClassId, RegularJavaClassSnapshot>,
                     previousClasses: map<ClassId, RegularJavaClassSnapshot>,
                     ids: set<ClassId>, id: ClassId)
    requires id in currentClasses && id in previousClasses && currentClasses[id].classId == id
    ensures ChangedClassesAmong(currentClasses, previousClasses, ids + {id})
         == ChangedClassesAmong(currentClasses, previousClasses, ids)
            + ClassChanges(currentClasses[id], previousClasses[id]).changedClasses
    ensures ChangedMembersAmong(currentClasses, previousClasses, ids + {id})
         == ChangedMembersAmong(currentClasses, previousClasses, ids)
            + ClassChanges(currentClasses[id], previousClasses[id]).changedClassMembers
  {
  }

  /** Whether no two elements of `s` share a key. */
  predicate UniqueKeys<K(==), V>(s: seq<V>, key: V -> K)
  {
    forall i, j | 0 <= i < j < |s| :: key(s[i]) != key(s[j])
  }

  /** With distinct keys, associateBy finds every element under its key. */
  lemma AssociateByUniqueFinds<K, V>(s: seq<V>, key: V -> K, i: nat)
    requires UniqueKeys(s, key) && i < |s|
    ensures AssociateBy(s, key)[key(s[i])] == s[i]
  {
    assert LastWithKey(s, key, i);
  }

  /** A class is reported as changed exactly when it was added, removed, or
      is present in both snapshots with a different class-level ABI hash. */
  lemma ChangedClassesExactly(current: seq<RegularJavaClassSnapshot>, previous: seq<RegularJavaClassSnapshot>,
                              id: ClassId)
    ensures var currentClasses := AssociateBy(current, ClassIdOf);
            var previousClasses := AssociateBy(previous, ClassIdOf);
            id in Changes(current, previous).changedClasses <==>
              || (id in KeysOf(current, ClassIdOf) && id !in KeysOf(previous, ClassIdOf))
              || (id in KeysOf(previous, ClassIdOf) && id !in KeysOf(current, ClassIdOf))
              || (id in currentClasses && id in previousClasses
                  && currentClasses[id].classAbiHash != previousClasses[id].classAbiHash)
  {
  }

  /** Every member change of a class names that class. */
  lemma ClassMemberChangesNameTheClass(current: RegularJavaClassSnapshot, previous: RegularJavaClassSnapshot,
                                       p: (ClassId, string))
    requires p in ClassChanges(current, previous).changedClassMembers
    ensures p.0 == current.classId && current.classAbiHash == previous.classAbiHash
  {
  }

  /** The member changes among `ids` of one class of `ids`. */
  lemma MembersAmongOfOne(currentClasses: map<ClassId, RegularJavaClassSnapshot>,
                          previousClasses: map<ClassId, RegularJavaClassSnapshot>,
                          ids: set<ClassId>, id: ClassId, name: string)
    requires forall i | i in ids :: Common(currentClasses, previousClasses, i)
    ensures (id, name) in ChangedMembersAmong(currentClasses, previousClasses, ids) <==>
              && id in ids && id in currentClasses && id in previousClasses
              && (id, name) in ClassChanges(currentClasses[id], previousClasses[id]).changedClassMembers
  {
    if (id, name) in ChangedMembersAmong(currentClasses, previousClasses, ids) {
      var i, q :| i in ids && i in currentClasses && i in previousClasses
                  && q in ClassChanges(currentClasses[i], previousClasses[i]).changedClassMembers
                  && q == (id, name);
      assert Common(currentClasses, previousClasses, i);
      ClassMemberChangesNameTheClass(currentClasses[i], previousClasses[i], q);
    }
  }

  /** Member changes are reported only for classes present in both
      snapshots with the same class-level ABI hash, and then they are that
      class's field and method changes; a differing hash reports the whole
      class and skips the member comparison. */
  lemma ChangedMembersExactly(current: seq<RegularJavaClassSnapshot>, previous: seq<RegularJavaClassSnapshot>,
                              id: ClassId, name: string)
    ensures var currentClasses := AssociateBy(current, ClassIdOf);
            var previousClasses := AssociateBy(previous, ClassIdOf);
            (id, name) in Changes(current, previous).changedClassMembers <==>
              && id in currentClasses && id in previousClasses
              && currentClasses[id].classAbiHash == previousClasses[id].classAbiHash
              && (id, name) in MemberChanges(id, currentClasses[id].fieldsAbi, previousClasses[id].fieldsAbi)
                                + MemberChanges(id, currentClasses[id].methodsAbi, previousClasses[id].methodsAbi)
  {
    var currentClasses := AssociateBy(current, ClassIdOf);
    var previousClasses := AssociateBy(previous, ClassIdOf);
    var common := currentClasses.Keys - (currentClasses.Keys - previousClasses.Keys);
    assert forall i | i in common :: Common(currentClasses, previousClasses, i);
    MembersAmongOfOne(currentClasses, previousClasses, common, id, name);
  }

  /** An added member name is the name of a member of `current` whose ABI
      hash no member of `previous` has (ABI hashes are distinct within a list). */
  lemma AddedMemberNamesExactly(current: seq<AbiSnapshot>, previous: seq<AbiSnapshot>, name: string)
    requires UniqueKeys(current, AbiHashOf)
    ensures name in AddedMemberNames(AssociateBy(current, AbiHashOf), AssociateBy(previous, AbiHashOf)) <==>
              exists i | 0 <= i < |current| :: current[i].name == name && current[i].abiHash !in KeysOf(previous, AbiHashOf)
  {
    var currentHashes := AssociateBy(current, AbiHashOf);
    var previousHashes := AssociateBy(previous, AbiHashOf);
    if name in AddedMemberNames(currentHashes, previousHashes) {
      var h :| h in currentHashes.Keys - previousHashes.Keys && currentHashes[h].name == name;
      var i :| 0 <= i < |current| && AbiHashOf(current[i]) == h;
      AssociateByUniqueFinds(current, AbiHashOf, i);
    }
    if exists i | 0 <= i < |current| :: current[i].name == name && current[i].abiHash !in KeysOf(previous, AbiHashOf) {
      var i :| 0 <= i < |current| && current[i].name == name && current[i].abiHash !in KeysOf(previous, AbiHashOf);
      AssociateByUniqueFinds(current, AbiHashOf, i);
      assert AbiHashOf(current[i]) in currentHashes.Keys - previousHashes.Keys;
    }
  }

  /** A modified member (same name, new ABI hash) is reported both as added
      and as removed. */
  lemma ModifiedMemberReportedTwice(current: seq<AbiSnapshot>, previous: seq<AbiSnapshot>, i: nat, j: nat)
    requires UniqueKeys(current, AbiHashOf) && UniqueKeys(previous, AbiHashOf)
    requires i < |current| && j < |previous| && current[i].name == previous[j].name
    requires current[i].abiHash !in KeysOf(previous, AbiHashOf) && previous[j].abiHash !in KeysOf(current, AbiHashOf)
    ensures current[i].name in AddedMemberNames(AssociateBy(current, AbiHashOf), AssociateBy(previous, AbiHashOf))
    ensures current[i].name in AddedMemberNames(AssociateBy(previous, AbiHashOf), AssociateBy(current, AbiHashOf))
  {
    AddedMemberNamesExactly(current, previous, current[i].name);
    AddedMemberNamesExactly(previous, current, previous[j].name);
  }

  /** A member list change reports the SAM lookup name, and reports nothing
      at all exactly when both lists have the same ABI hashes. */
  lemma SamLookupNameWhenMembersChange(classId: ClassId, current: seq<AbiSnapshot>, previous: seq<AbiSnapshot>)
    ensures KeysOf(current, AbiHashOf) != KeysOf(previous, AbiHashOf) ==>
              (classId, SamLookupName) in MemberChanges(classId, current, previous)
    ensures MemberChanges(classId, current, previous) == {} <==>
              KeysOf(current, AbiHashOf) == KeysOf(previous, AbiHashOf)
  {
    var currentHashes := AssociateBy(current, AbiHashOf);
    var previousHashes := AssociateBy(previous, AbiHashOf);
    if currentHashes.Keys == previousHashes.Keys {
      assert AddedMemberNames(currentHashes, previousHashes) == {};
      assert AddedMemberNames(previousHashes, currentHashes) == {};
    }
  }

  /** When no member is named like the SAM lookup name, that name is
      reported if and only if some member was added or removed. */
  lemma SamLookupNameIffMembersChange(classId: ClassId, current: seq<AbiSnapshot>, previous: seq<AbiSnapshot>)
    requires forall a | a in current :: a.name != SamLookupName
    requires forall a | a in previous :: a.name != SamLookupName
    ensures (classId, SamLookupName) in MemberChanges(classId, current, previous) <==>
              KeysOf(current, AbiHashOf) != KeysOf(previous, AbiHashOf)
  {
    SamLookupNameWhenMembersChange(classId, current, previous);
  }

  /** Comparing a classpath snapshot with itself yields no changes. */
  lemma IdenticalSnapshotsHaveNoChanges(snapshots: seq<RegularJavaClassSnapshot>)
    ensures Changes(snapshots, snapshots) == ChangeSet({}, {})
  {
    var classes := AssociateBy(snapshots, ClassIdOf);
    forall id | id in classes
      ensures ClassChanges(classes[id], classes[id]).changedClassMembers == {}
    {
      var c := classes[id];
      SamLookupNameWhenMembersChange(c.classId, c.fieldsAbi, c.fieldsAbi);
      SamLookupNameWhenMembersChange(c.classId, c.methodsAbi, c.methodsAbi);
    }
    forall id, name | true
      ensures (id, name) !in Changes(snapshots, snapshots).changedClassMembers
    {
      ChangedMembersExactly(snapshots, snapshots, id, name);
    }
  }
}
