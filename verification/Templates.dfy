/** The decisions that compare a stored StatefulSet with the desired one:
    volumeClaimTemplatesEqual, statefulSetRequiresRecreation and
    validateVolumeClaimTemplateStorageClassChange. */
module Templates {
  import opened Text
  import opened Kube

  // ---------- claim-template equality ----------

  /** The template a Go map keeps under a name: the last one stored. */
  function LastNamed(templates: seq<ClaimTemplate>, name: string): Option<ClaimTemplate> {
    if |templates| == 0 then None
    else if templates[|templates| - 1].name == name then Some(templates[|templates| - 1])
    else LastNamed(templates[..|templates| - 1], name)
  }

  predicate SameButSize(a: ClaimTemplate, b: ClaimTemplate) {
    a.labels == b.labels && a.accessModes == b.accessModes && a.storageClass == b.storageClass
  }

  /** Equal lengths, and every desired template has a current one of its name that differs from
      it in the storage request at most. */
  predicate TemplatesEqual(current: seq<ClaimTemplate>, desired: seq<ClaimTemplate>) {
    && |current| == |desired|
    && forall i :: 0 <= i < |desired| ==>
         LastNamed(current, desired[i].name).Some? &&
         SameButSize(LastNamed(current, desired[i].name).value, desired[i])
  }

  method VolumeClaimTemplatesEqual(current: seq<ClaimTemplate>, desired: seq<ClaimTemplate>) returns (equal: bool)
    ensures equal == TemplatesEqual(current, desired)
  {
    if |current| != |desired| {
      return false;
    }
    var currentByName: map<string, ClaimTemplate> := map[];
    var i := 0;
    while i < |current|
      invariant 0 <= i <= |current|
      invariant forall name :: (if name in currentByName then Some(currentByName[name]) else None)
                               == LastNamed(current[..i], name)
    {
      assert current[..i + 1][..i] == current[..i];
      currentByName := currentByName[current[i].name := current[i]];
      i := i + 1;
    }
    assert current[..|current|] == current;
    i := 0;
    while i < |desired|
      invariant 0 <= i <= |desired|
      invariant forall k :: 0 <= k < i ==>
                  LastNamed(current, desired[k].name).Some? &&
                  SameButSize(LastNamed(current, desired[k].name).value, desired[k])
    {
      assert LastNamed(current, desired[i].name).Some? <==> desired[i].name in currentByName;
      if desired[i].name !in currentByName {
        return false;
      }
      var currentTemplate := currentByName[desired[i].name];
      if currentTemplate.labels != desired[i].labels ||
         currentTemplate.accessModes != desired[i].accessModes ||
         currentTemplate.storageClass != desired[i].storageClass {
        return false;
      }
      i := i + 1;
    }
    return true;
  }

  // ---------- it is an order-insensitive equivalence ----------

  ghost predicate DistinctNames(templates: seq<ClaimTemplate>) {
    forall i, j :: 0 <= i < j < |templates| ==> templates[i].name != templates[j].name
  }

  ghost function NameSet(templates: seq<ClaimTemplate>): set<string> {
    set t | t in templates :: t.name
  }

  /** What equality compares: everything but the storage request. */
  function Sizeless(t: ClaimTemplate): ClaimTemplate {
    t.(request := None)
  }

  ghost function SizelessSet(templates: seq<ClaimTemplate>): set<ClaimTemplate> {
    set t | t in templates :: Sizeless(t)
  }

  lemma NamesOfAppend(front: seq<ClaimTemplate>, last: ClaimTemplate)
    ensures NameSet(front + [last]) == NameSet(front) + {last.name}
  {
    assert forall t :: t in front + [last] <==> t in front || t == last;
  }

  lemma DistinctAppend(front: seq<ClaimTemplate>, last: ClaimTemplate)
    ensures DistinctNames(front + [last]) <==> DistinctNames(front) && last.name !in NameSet(front)
  {
    var all, n := front + [last], |front|;
    if DistinctNames(all) {
      forall i, j | 0 <= i < j < n ensures front[i].name != front[j].name {
        assert all[i] == front[i] && all[j] == front[j];
      }
      forall t | t in front ensures t.name != last.name {
        var i :| 0 <= i < n && front[i] == t;
        assert all[i].name != all[n].name;
      }
    } else {
      var i, j :| 0 <= i < j <= n && all[i].name == all[j].name;
      assert all[i] == front[i] && front[i] in front;
      assert j < n ==> all[j] == front[j];
    }
  }

  lemma {:induction false} NameCount(templates: seq<ClaimTemplate>)
    ensures |NameSet(templates)| <= |templates|
    ensures |NameSet(templates)| == |templates| <==> DistinctNames(templates)
  {
    if |templates| != 0 {
      var n := |templates| - 1;
      NameCount(templates[..n]);
      NamesOfAppend(templates[..n], templates[n]);
      DistinctAppend(templates[..n], templates[n]);
      assert templates == templates[..n] + [templates[n]];
    }
  }

  /** A lookup finds the last template of the name. */
  lemma {:induction false} LastNamedIsLast(templates: seq<ClaimTemplate>, i: nat)
    requires i < |templates| && forall j :: i < j < |templates| ==> templates[j].name != templates[i].name
    ensures LastNamed(templates, templates[i].name) == Some(templates[i])
  {
    var n := |templates| - 1;
    if i < n {
      LastNamedIsLast(templates[..n], i);
    }
  }

  lemma {:induction false} LastNamedFinds(templates: seq<ClaimTemplate>, name: string)
    ensures LastNamed(templates, name).Some? <==> name in NameSet(templates)
    ensures LastNamed(templates, name).Some? ==>
              LastNamed(templates, name).value in templates && LastNamed(templates, name).value.name == name
  {
    if |templates| != 0 {
      var n := |templates| - 1;
      assert templates == templates[..n] + [templates[n]];
      LastNamedFinds(templates[..n], name);
    }
  }

  lemma DistinctFound(templates: seq<ClaimTemplate>, t: ClaimTemplate)
    requires DistinctNames(templates) && t in templates
    ensures LastNamed(templates, t.name) == Some(t)
  {
    LastNamedFinds(templates, t.name);
    var found := LastNamed(templates, t.name).value;
    var i :| 0 <= i < |templates| && templates[i] == t;
    var j :| 0 <= j < |templates| && templates[j] == found;
  }

  lemma SubsetFull(a: set<string>, b: set<string>)
    requires a <= b && |b| <= |a|
    ensures a == b
  {
    if x :| x in b && x !in a {
      assert a <= b - {x};
      SubsetCount(a, b - {x});
    }
  }

  lemma SubsetCount(a: set<string>, b: set<string>)
    requires a <= b
    ensures |a| <= |b|
  {
    assert b == a + (b - a);
  }

  /** By counting: if the desired names are distinct, finding each of them among equally many
      current templates forces a one-to-one match. */
  lemma NamesMatch(current: seq<ClaimTemplate>, desired: seq<ClaimTemplate>)
    requires DistinctNames(desired) && TemplatesEqual(current, desired)
    ensures DistinctNames(current) && NameSet(current) == NameSet(desired)
  {
    NameCount(current);
    NameCount(desired);
    forall name | name in NameSet(desired) ensures name in NameSet(current) {
      var t :| t in desired && t.name == name;
      var i :| 0 <= i < |desired| && desired[i] == t;
      LastNamedFinds(current, name);
    }
    SubsetCount(NameSet(desired), NameSet(current));
    SubsetFull(NameSet(desired), NameSet(current));
  }

  /** For distinct desired names the loops decide exactly whether both lists hold the same
      templates, sizes and order aside. */
  lemma EqualityMeaning(current: seq<ClaimTemplate>, desired: seq<ClaimTemplate>)
    requires DistinctNames(desired)
    ensures TemplatesEqual(current, desired)
            <==> DistinctNames(current) && SizelessSet(current) == SizelessSet(desired)
  {
    if TemplatesEqual(current, desired) {
      NamesMatch(current, desired);
      forall i | 0 <= i < |desired| ensures Sizeless(desired[i]) in SizelessSet(current) {
        LastNamedFinds(current, desired[i].name);
        var t := LastNamed(current, desired[i].name).value;
        assert Sizeless(t) == Sizeless(desired[i]);
      }
      forall t | t in current ensures Sizeless(t) in SizelessSet(desired) {
        assert t.name in NameSet(current);
        var d :| d in desired && d.name == t.name;
        var i :| 0 <= i < |desired| && desired[i] == d;
        DistinctFound(current, t);
        assert Sizeless(t) == Sizeless(d);
      }
    } else if DistinctNames(current) && SizelessSet(current) == SizelessSet(desired) {
      SameSetEqual(current, desired);
    }
  }

  lemma SizelessNames(a: seq<ClaimTemplate>, b: seq<ClaimTemplate>)
    requires SizelessSet(a) <= SizelessSet(b)
    ensures NameSet(a) <= NameSet(b)
  {
    forall name | name in NameSet(a) ensures name in NameSet(b) {
      var t :| t in a && t.name == name;
      assert Sizeless(t) in SizelessSet(b);
      var u :| u in b && Sizeless(u) == Sizeless(t);
      assert u.name == name;
    }
  }

  lemma SameSetEqual(current: seq<ClaimTemplate>, desired: seq<ClaimTemplate>)
    requires DistinctNames(current) && DistinctNames(desired)
    requires SizelessSet(current) == SizelessSet(desired)
    ensures TemplatesEqual(current, desired)
  {
    SizelessNames(current, desired);
    SizelessNames(desired, current);
    NameCount(current);
    NameCount(desired);
    assert NameSet(current) == NameSet(desired);
    forall i | 0 <= i < |desired|
      ensures LastNamed(current, desired[i].name).Some?
              && SameButSize(LastNamed(current, desired[i].name).value, desired[i])
    {
      assert Sizeless(desired[i]) in SizelessSet(current);
      var t :| t in current && Sizeless(t) == Sizeless(desired[i]);
      DistinctFound(current, t);
      assert t.name == Sizeless(t).name == desired[i].name;
      assert t.labels == Sizeless(t).labels && t.accessModes == Sizeless(t).accessModes;
      assert t.storageClass == Sizeless(t).storageClass;
    }
  }

  /** On lists with distinct names equality is reflexive, symmetric and transitive. */
  lemma EqualityIsEquivalence(a: seq<ClaimTemplate>, b: seq<ClaimTemplate>, c: seq<ClaimTemplate>)
    requires DistinctNames(a) && DistinctNames(b) && DistinctNames(c)
    ensures TemplatesEqual(a, a)
    ensures TemplatesEqual(a, b) ==> TemplatesEqual(b, a)
    ensures TemplatesEqual(a, b) && TemplatesEqual(b, c) ==> TemplatesEqual(a, c)
  {
    EqualityMeaning(a, a);
    EqualityMeaning(a, b);
    EqualityMeaning(b, a);
    EqualityMeaning(b, c);
    EqualityMeaning(a, c);
  }

  /** Symmetry needs only that the desired names are distinct. */
  lemma EqualitySymmetric(current: seq<ClaimTemplate>, desired: seq<ClaimTemplate>)
    requires DistinctNames(desired) && TemplatesEqual(current, desired)
    ensures TemplatesEqual(desired, current)
  {
    EqualityMeaning(current, desired);
    EqualityMeaning(desired, current);
  }

  /** The order of either list does not matter. */
  lemma EqualityPermutes(a: seq<ClaimTemplate>, b: seq<ClaimTemplate>, a': seq<ClaimTemplate>, b': seq<ClaimTemplate>)
    requires DistinctNames(b)
    requires multiset(a) == multiset(a') && multiset(b) == multiset(b')
    ensures TemplatesEqual(a, b) <==> TemplatesEqual(a', b')
  {
    PermutedNames(a, a');
    PermutedNames(b, b');
    EqualityMeaning(a, b);
    EqualityMeaning(a', b');
  }

  lemma PermutedNames(a: seq<ClaimTemplate>, a': seq<ClaimTemplate>)
    requires multiset(a) == multiset(a')
    ensures DistinctNames(a) <==> DistinctNames(a')
    ensures SizelessSet(a) == SizelessSet(a')
  {
    assert forall t :: t in a <==> t in multiset(a);
    assert forall t :: t in a' <==> t in multiset(a');
    assert |a| == |multiset(a)| == |multiset(a')| == |a'|;
    assert NameSet(a) == NameSet(a');
    NameCount(a);
    NameCount(a');
  }

  // ---------- repeated names ----------

  ghost predicate SymmetricFor(desired: seq<ClaimTemplate>) {
    forall current :: TemplatesEqual(current, desired) ==> TemplatesEqual(desired, current)
  }

  /** Templates of one name differ in the storage request at most. */
  ghost predicate NamesAgree(templates: seq<ClaimTemplate>) {
    forall i, j :: 0 <= i < j < |templates| && templates[i].name == templates[j].name ==>
      SameButSize(templates[i], templates[j])
  }

  /** The index of the template that a lookup by name finds. */
  lemma LookupIndex(templates: seq<ClaimTemplate>, name: string) returns (i: nat)
    requires name in NameSet(templates)
    ensures i < |templates| && LastNamed(templates, name) == Some(templates[i]) && templates[i].name == name
  {
    LastNamedFinds(templates, name);
    i :| 0 <= i < |templates| && templates[i] == LastNamed(templates, name).value;
  }

  /** Only a list whose repeated names agree is equal to anything: a lookup by name cannot match
      two templates that differ. */
  lemma EqualImpliesNamesAgree(current: seq<ClaimTemplate>, desired: seq<ClaimTemplate>)
    ensures TemplatesEqual(current, desired) ==> NamesAgree(desired)
  {
    if TemplatesEqual(current, desired) {
      forall i, j | 0 <= i < j < |desired| && desired[i].name == desired[j].name
        ensures SameButSize(desired[i], desired[j])
      {
        assert SameButSize(LastNamed(current, desired[i].name).value, desired[i]);
        assert SameButSize(LastNamed(current, desired[j].name).value, desired[j]);
      }
    }
  }

  /** A list equals itself exactly when its repeated names agree. */
  lemma ReflexiveExact(templates: seq<ClaimTemplate>)
    ensures TemplatesEqual(templates, templates) <==> NamesAgree(templates)
  {
    EqualImpliesNamesAgree(templates, templates);
    if NamesAgree(templates) {
      forall i | 0 <= i < |templates|
        ensures LastNamed(templates, templates[i].name).Some?
                && SameButSize(LastNamed(templates, templates[i].name).value, templates[i])
      {
        assert templates[i] in templates;
        var j := LookupIndex(templates, templates[i].name);
        assert i < j ==> SameButSize(templates[i], templates[j]);
        assert j < i ==> SameButSize(templates[j], templates[i]);
      }
    }
  }

  /** A name longer than every name of the list. */
  function FreshName(templates: seq<ClaimTemplate>): (name: string)
    ensures forall i :: 0 <= i < |templates| ==> |templates[i].name| < |name|
  {
    if |templates| == 0 then "x" else templates[0].name + FreshName(templates[1..])
  }

  /** Replacing a template that a later one of its name hides changes no other lookup. */
  lemma {:induction false} ReplaceHidden(templates: seq<ClaimTemplate>, i: nat, q: ClaimTemplate, name: string)
    requires i < |templates| && q.name != name
    requires templates[i].name == name ==> exists j :: i < j < |templates| && templates[j].name == name
    ensures LastNamed(templates[i := q], name) == LastNamed(templates, name)
  {
    var n := |templates| - 1;
    if i == n {
      assert templates[i := q][..n] == templates[..n];
    } else if templates[n].name != name {
      var front := templates[..n];
      assert templates[i := q][..n] == front[i := q];
      if templates[i].name == name {
        var j :| i < j < |templates| && templates[j].name == name;
        assert front[j].name == name;
      }
      ReplaceHidden(front, i, q, name);
    }
  }

  /** Against a repeated name a list can pass in one direction only. */
  lemma RepeatedNameAsymmetric(desired: seq<ClaimTemplate>, i: nat, j: nat) returns (current: seq<ClaimTemplate>)
    requires i < j < |desired| && desired[i].name == desired[j].name && NamesAgree(desired)
    ensures TemplatesEqual(current, desired) && !TemplatesEqual(desired, current)
  {
    ReflexiveExact(desired);
    var q := desired[i].(name := FreshName(desired));
    current := desired[i := q];
    forall k | 0 <= k < |desired| ensures LastNamed(current, desired[k].name) == LastNamed(desired, desired[k].name) {
      ReplaceHidden(desired, i, q, desired[k].name);
    }
    LastNamedFinds(desired, q.name);
    assert current[i] == q;
  }

  /** Symmetry holds exactly for distinct desired names, and for lists that equal nothing since
      they hold two different templates of one name. */
  lemma SymmetryExact(desired: seq<ClaimTemplate>)
    ensures SymmetricFor(desired) <==> DistinctNames(desired) || !NamesAgree(desired)
  {
    if DistinctNames(desired) {
      forall current | TemplatesEqual(current, desired) ensures TemplatesEqual(desired, current) {
        EqualitySymmetric(current, desired);
      }
    } else if NamesAgree(desired) {
      var i, j :| 0 <= i < j < |desired| && desired[i].name == desired[j].name;
      var current := RepeatedNameAsymmetric(desired, i, j);
    } else {
      forall current ensures !TemplatesEqual(current, desired) {
        EqualImpliesNamesAgree(current, desired);
      }
    }
  }

  // ---------- recreation and class change ----------

  predicate RequiresRecreation(current: StatefulSet, desired: StatefulSet) {
    current.serviceName != desired.serviceName ||
    current.podManagementPolicy != desired.podManagementPolicy ||
    current.selector != desired.selector ||
    !TemplatesEqual(current.templates, desired.templates)
  }

  function StorageClassName(value: Option<string>): string {
    if value.None? then "<default>" else value.value
  }

  function ValidateClassChange(current: seq<ClaimTemplate>, desired: seq<ClaimTemplate>): Option<Error> {
    if |current| != 1 || |desired| != 1 || current[0].name != desired[0].name then None
    else if current[0].storageClass == desired[0].storageClass then None
    else Some(TemplateClassChange(StorageClassName(current[0].storageClass), StorageClassName(desired[0].storageClass)))
  }

  /** A class change is reported exactly between single templates of one name with different
      class fields, and the error names the two classes. */
  lemma ClassChangeExact(current: seq<ClaimTemplate>, desired: seq<ClaimTemplate>, from: string, to: string)
    ensures ValidateClassChange(current, desired) == Some(TemplateClassChange(from, to))
            <==> && (exists t, u :: current == [t] && desired == [u] && t.name == u.name
                                    && t.storageClass != u.storageClass
                                    && (t.storageClass == Some(from) || (t.storageClass.None? && from == "<default>"))
                                    && (u.storageClass == Some(to) || (u.storageClass.None? && to == "<default>")))
    ensures ValidateClassChange(current, desired).Some? ==> ValidateClassChange(current, desired).value.TemplateClassChange?
  {
    if |current| == 1 && |desired| == 1 {
      assert current == [current[0]] && desired == [desired[0]];
    }
  }

  /** A reported class change is one that recreation would otherwise have carried out: under
      the same single template the two decisions conflict, and the error comes first. */
  lemma ClassChangeBlocksRecreation(current: StatefulSet, desired: StatefulSet)
    requires ValidateClassChange(current.templates, desired.templates).Some?
    ensures RequiresRecreation(current, desired)
  {
    assert current.templates == [current.templates[0]];
    assert LastNamed(current.templates, desired.templates[0].name) == Some(current.templates[0]);
  }
}
