/**
 * The observable contract of the shared state-machine actor, as the layout elements use it:
 * the snapshot they read (status, free-spin flag, element load-status map) and the events they
 * send. The load-status update that four widgets perform identically is defined here once.
 */
module Machine {

  /** The status tags the elements compare against; every other status is `OtherState`. */
  datatype MachineState =
    | Loading
    | Idle
    | FreeSpinIdle
    | ReadyToEnterNormalSpin
    | ReadyToEnterFreeSpin
    | OtherState(name: string)

  /** `{isLoaded, elementLabel}`: one element's entry in `context.elementLoadStatus`. */
  datatype LoadRecord = LoadRecord(isLoaded: bool, elementLabel: string)

  type LoadStatusMap = map<string, LoadRecord>

  datatype Context = Context(isFreeSpin: bool, elementLoadStatus: LoadStatusMap)

  datatype Snapshot = Snapshot(status: MachineState, context: Context)

  datatype MachineEvent =
    | UpdateElementStatus(elementLoadStatus: LoadStatusMap)
    | InitToNormalSpinIdle
    | InitToFreeSpinIdle

  /** The labels whose record says loaded. */
  function LoadedLabels(m: LoadStatusMap): set<string> {
    set k | k in m && m[k].isLoaded
  }

  /**
   * `{...elementLoadStatus, [label]: {isLoaded: true, label}}`: only the element's own entry
   * changes, and it becomes a loaded record naming the element.
   */
  function MarkLoaded(m: LoadStatusMap, elementLabel: string): (r: LoadStatusMap)
    ensures r.Keys == m.Keys + {elementLabel}
    ensures r[elementLabel].isLoaded && r[elementLabel].elementLabel == elementLabel
    ensures forall k :: k in m && k != elementLabel ==> r[k] == m[k]
    ensures LoadedLabels(r) == LoadedLabels(m) + {elementLabel}
  {
    m[elementLabel := LoadRecord(true, elementLabel)]
  }

  /** The event `sendLoadedEvent` sends after reading the current snapshot. */
  function LoadedEvent(s: Snapshot, elementLabel: string): MachineEvent {
    UpdateElementStatus(MarkLoaded(s.context.elementLoadStatus, elementLabel))
  }

  /** Reporting the same element twice gives the same map as reporting it once. */
  lemma MarkLoadedIdempotent(m: LoadStatusMap, elementLabel: string)
    ensures MarkLoaded(MarkLoaded(m, elementLabel), elementLabel) == MarkLoaded(m, elementLabel)
  {
  }

  /**
   * Serialised completions of two different elements commute: whichever the actor applies
   * first, both records are present afterwards.
   */
  lemma MarkLoadedCommutes(m: LoadStatusMap, a: string, b: string)
    requires a != b
    ensures MarkLoaded(MarkLoaded(m, a), b) == MarkLoaded(MarkLoaded(m, b), a)
    ensures a in LoadedLabels(MarkLoaded(MarkLoaded(m, a), b))
  {
  }

  /**
   * Without serialisation the update is lost: a map computed from a snapshot read before
   * `a`'s completion was applied carries no record for `a`, so sending it last erases `a`.
   */
  lemma StaleSnapshotLosesUpdate(m: LoadStatusMap, a: string, b: string)
    requires a != b && a !in m
    ensures a in MarkLoaded(m, a) && a !in MarkLoaded(m, b)
  {
  }

  /** Applying the completions of `labels` one at a time, in order, as the actor serialises them. */
  function MarkAllLoaded(m: LoadStatusMap, labels: seq<string>): LoadStatusMap
    decreases |labels|
  {
    if labels == [] then m else MarkAllLoaded(MarkLoaded(m, labels[0]), labels[1..])
  }

  /** The loaded record every label in `labels` ends with. */
  function LoadedRecords(labels: seq<string>): LoadStatusMap {
    map k | k in labels :: LoadRecord(true, k)
  }

  /**
   * After every element in `labels` has reported, in any order and with repeats, the map is
   * the old one overwritten by a loaded record per reported label: nothing is lost, nothing
   * else changes, and the order of completions does not matter.
   */
  lemma {:induction false} MarkAllLoadedIsUnion(m: LoadStatusMap, labels: seq<string>)
    ensures MarkAllLoaded(m, labels) == m + LoadedRecords(labels)
    decreases |labels|
  {
    if labels != [] {
      var m' := MarkLoaded(m, labels[0]);
      MarkAllLoadedIsUnion(m', labels[1..]);
      assert m' + LoadedRecords(labels[1..]) == m + LoadedRecords(labels) by {
        assert forall k :: k in labels <==> k == labels[0] || k in labels[1..];
      }
    }
  }

  /** Load status is monotonic: a label once loaded stays loaded through later completions. */
  lemma {:induction false} LoadedNeverReverts(m: LoadStatusMap, labels: seq<string>)
    ensures LoadedLabels(m) <= LoadedLabels(MarkAllLoaded(m, labels))
    ensures forall k :: k in labels ==> k in LoadedLabels(MarkAllLoaded(m, labels))
  {
    MarkAllLoadedIsUnion(m, labels);
  }
}
