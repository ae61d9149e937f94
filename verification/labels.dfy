/** Labels: desired ones are strings, observed ones are decoded JSON values. */
module Labels {
  import opened Common

  /** A decoded JSON label value. Everything that is not a string is kept as
      the text fmt's %v verb prints for it. */
  datatype LabelValue = Text(s: string) | Rendered(printed: string)

  type DesiredLabels = map<string, string>
  type ObservedLabels = map<string, LabelValue>

  function Sprint(v: LabelValue): string {
    match v
    case Text(s) => s
    case Rendered(p) => p
  }

  /** Every desired label is observed with the same printed value. */
  predicate Covers(current: ObservedLabels, desired: DesiredLabels) {
    forall k | k in desired :: k in current && Sprint(current[k]) == desired[k]
  }

  function Boxed(labels: DesiredLabels): ObservedLabels {
    map k | k in labels :: Text(labels[k])
  }

  /** What STACKIT does with a label map in an update: replace the old labels
      or merge the new ones into them. */
  function ApplyLabels(current: ObservedLabels, patch: ObservedLabels, replace: bool): ObservedLabels {
    if replace then patch else current + patch
  }

  /** Sending the desired labels makes them covered, whichever way STACKIT
      applies them; and nothing is sent when nothing is desired, because no
      desired labels are always covered. */
  lemma SendingLabelsCovers(current: ObservedLabels, desired: DesiredLabels, replace: bool)
    ensures Covers(ApplyLabels(current, Boxed(desired), replace), desired)
    ensures !Covers(current, desired) ==> desired != map[]
  {
  }

  /** The labels of the payload as the spec has them; a payload without labels
      stands for none. */
  function Unboxed(labels: Option<ObservedLabels>): DesiredLabels {
    if labels.None? then map[] else map k | k in labels.value :: Sprint(labels.value[k])
  }

  /** However the observed labels are typed, only what they print matters: the
      desired labels are covered iff they are among the printed ones. */
  lemma CoversIsSubmap(printed: map<string, string>, current: ObservedLabels, desired: DesiredLabels)
    requires current.Keys == printed.Keys
    requires forall k | k in printed :: current[k] in {Text(printed[k]), Rendered(printed[k])}
    ensures Covers(current, desired) <==> desired.Items <= printed.Items
  {
    if Covers(current, desired) {
      forall item | item in desired.Items
        ensures item in printed.Items
      {
        assert item.0 in current;
      }
    }
    if desired.Items <= printed.Items {
      forall k | k in desired
        ensures k in current && Sprint(current[k]) == desired[k]
      {
        assert (k, desired[k]) in printed.Items;
      }
    }
  }

  /** Labels survive the payload. */
  lemma BoxedIsUnboxed(labels: DesiredLabels)
    ensures Unboxed(if labels != map[] then Some(Boxed(labels)) else None) == labels
  {
  }

  method LabelsEqual(current: ObservedLabels, desired: DesiredLabels) returns (equal: bool)
    ensures equal <==> Covers(current, desired)
  {
    var keys := desired.Keys;
    while keys != {}
      invariant keys <= desired.Keys
      invariant forall k | k in desired && k !in keys :: k in current && Sprint(current[k]) == desired[k]
      decreases |keys|
    {
      var k :| k in keys;
      if k !in current {
        return false;
      }
      if Sprint(current[k]) != desired[k] {
        return false;
      }
      keys := keys - {k};
    }
    equal := true;
  }

  method ToInterfaceMap(labels: DesiredLabels) returns (out: ObservedLabels)
    ensures out == Boxed(labels)
  {
    out := map[];
    var keys := labels.Keys;
    while keys != {}
      invariant keys <= labels.Keys
      invariant out.Keys == labels.Keys - keys
      invariant forall k | k in out :: out[k] == Text(labels[k])
      decreases |keys|
    {
      var k :| k in keys;
      out := out[k := Text(labels[k])];
      keys := keys - {k};
    }
  }
}
