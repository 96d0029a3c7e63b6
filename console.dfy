/**
 * The `Module` root: it probes the stats endpoint once, classifies the
 * module as a collector (its stats carry an `Urgent` group) or a
 * dispatcher, and renders the variant's configuration and statistics
 * field lists; the statistics tab plots one rate series per stat field.
 */
module Console {
  import opened Payload
  import opened Rates
  import Remote

  /** `this.state.modType`: `""` until the probe answers. */
  datatype ModType = Unknown | Dispatcher | Collector

  /** One plotted series: its legend and the counter whose rate it plots. */
  datatype StatField = StatField(legend: string, path: CounterPath)

  /** What the root renders: an empty `<div/>`, or the two tabs with the variant's field lists. */
  datatype View = Blank | ConfStat(configFields: seq<string>, statFields: seq<StatField>)

  const DispatcherConfigFields: seq<string> :=
    ["DestinationHost", "DestinationPort", "ReadOnly", "Verbose"]

  const CollectorConfigFields: seq<string> :=
    ["Destination", "Encoding", "StoreRegex", "UrgentRegex", "SpamRegex", "Port",
     "BufferSizeThreshold", "BufferTimeoutMS", "ReadOnly", "Verbose"]

  const DispatcherStatFields: seq<StatField> :=
    [StatField("Incoming bytes/s", CounterPath("Total", Incoming)),
     StatField("Outgoing bytes/s", CounterPath("Total", Outgoing))]

  const CollectorStatFields: seq<StatField> :=
    DispatcherStatFields + [StatField("Stored bytes/s", CounterPath("Store", Outgoing))]

  /** The probe's classification of a stats payload. */
  function Detect(data: Stats): (m: ModType)
    ensures m != Unknown
    ensures m == Collector <==> "Urgent" in data.groups
    ensures m == Dispatcher <==> "Urgent" !in data.groups
  {
    if "Urgent" in data.groups then Collector else Dispatcher
  }

  /** `Module.render`: dispatch on the detected variant. */
  function Render(m: ModType): (v: View)
    ensures v == Blank <==> m == Unknown
    ensures m == Dispatcher ==> v == ConfStat(DispatcherConfigFields, DispatcherStatFields)
    ensures m == Collector ==> v == ConfStat(CollectorConfigFields, CollectorStatFields)
  {
    match m
    case Unknown => Blank
    case Dispatcher => ConfStat(DispatcherConfigFields, DispatcherStatFields)
    case Collector => ConfStat(CollectorConfigFields, CollectorStatFields)
  }

  /**
   * The configuration form of a detected module fetches the encoding
   * list on mount exactly when the module is a collector, that is when
   * its stats carry an `Urgent` group.
   */
  lemma EncodingsOnlyForCollector(data: Stats)
    ensures var v := Render(Detect(data));
      v.ConfStat? && ("Encoding" in v.configFields <==> "Urgent" in data.groups)
  {
    assert DispatcherConfigFields[2] != "Encoding";
    assert CollectorConfigFields[1] == "Encoding";
  }

  /** The counter one stat field plots, across the window. */
  function Project(path: CounterPath, data: seq<Stats>): (samples: seq<Sample>)
    requires forall i :: 0 <= i < |data| ==> path.group in data[i].groups
    ensures |samples| == |data|
    ensures forall i :: 0 <= i < |data| ==>
              samples[i] == Sample(data[i].elapsedMS, Read(path, data[i]))
  {
    if data == [] then []
    else [Sample(data[0].elapsedMS, Read(path, data[0]))] + Project(path, data[1..])
  }

  /** Every payload carries the groups the stat fields read. */
  ghost predicate Readable(fields: seq<StatField>, data: seq<Stats>)
  {
    forall f, i :: f in fields && 0 <= i < |data| ==> f.path.group in data[i].groups
  }

  /** `this.props.fields.map(d => d(this.state.data))`: one rate series per stat field. */
  function Datasets(fields: seq<StatField>, data: seq<Stats>): (series: seq<seq<Rate>>)
    requires Readable(fields, data)
    ensures |series| == |fields|
    ensures forall k :: 0 <= k < |fields| ==> series[k] == Deltas(Project(fields[k].path, data))
  {
    if fields == [] then []
    else [Deltas(Project(fields[0].path, data))] + Datasets(fields[1..], data)
  }

  /**
   * Once the window holds at least one sample, every plotted series has
   * one point per timestamp label, the oldest point being NaN.
   */
  lemma DatasetsAligned(fields: seq<StatField>, timestamps: seq<int>, data: seq<Stats>)
    requires Readable(fields, data)
    requires |timestamps| == |data| > 0
    ensures forall k :: 0 <= k < |fields| ==>
              |Datasets(fields, data)[k]| == |timestamps| && Datasets(fields, data)[k][0] == NaN
  {
  }

  /** The root component. */
  class ModuleView {
    var modType: ModType
    var requests: seq<Remote.Request>

    constructor ()
      ensures modType == Unknown && requests == []
    {
      modType := Unknown;
      requests := [];
    }

    /** `componentDidMount`: one stats probe. */
    method Mount()
      modifies this
      ensures requests == old(requests) + [Remote.StatsProbe]
      ensures modType == old(modType)
    {
      requests := requests + [Remote.StatsProbe];
    }

    /** The probe's response fixes the variant. */
    method OnProbe(data: Stats)
      modifies this
      ensures modType == Detect(data)
      ensures requests == old(requests)
    {
      modType := Detect(data);
    }
  }
}
