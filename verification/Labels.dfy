/** The label helpers (pkg/meta/labels.go), which share one label map between caller and object. */
module Labels {
  import opened ApiServer
  import opened Passes

  /** A label map in memory; several variables may refer to the same one. */
  class LabelMap {
    var entries: map<string, string>

    constructor ()
      ensures entries == map[]
    {
      entries := map[];
    }

    method Set(key: string, value: string)
      modifies this
      ensures entries == old(entries)[key := value]
    {
      entries := entries[key := value];
    }
  }

  /** The metadata of an object; `labels` is null until labels are set. */
  class ObjectMeta {
    var labels: LabelMap?

    constructor ()
      ensures labels == null
    {
      labels := null;
    }

    /** The labels a reader of the object sees. */
    function Labels(): map<string, string>
      reads this, labels
    {
      if labels == null then map[] else labels.entries
    }
  }

  method SetManagedBy(o: ObjectMeta)
    modifies o, o.labels
    ensures o.labels != null && (o.labels == old(o.labels) || fresh(o.labels))
    ensures o.Labels() == old(o.Labels())[MANAGED_BY := MANAGED_BY_VALUE]
  {
    var labels := o.labels;
    if labels == null {
      labels := new LabelMap();
    }
    labels.Set(MANAGED_BY, MANAGED_BY_VALUE);
    o.labels := labels;
  }

  /** Writes through the label map the object already has; without one the label is lost. */
  method SetInstanceID(o: ObjectMeta, instance: string)
    modifies o.labels
    ensures o.labels == old(o.labels)
    ensures o.Labels() == if o.labels != null then old(o.Labels())[INSTANCE_ID := instance] else old(o.Labels())
  {
    var labels := o.labels;
    if labels == null {
      labels := new LabelMap();
    }
    labels.Set(INSTANCE_ID, instance);
  }

  /** The order the manager uses: both labels arrive, whether or not the object had any. */
  method LabelObject(o: ObjectMeta, instance: string)
    modifies o, o.labels
    ensures o.Labels() == old(o.Labels())["app.kubernetes.io/managed-by" := "service-provider-velero"]
                                         ["velero.services.openmcp.cloud/instance-id" := instance]
    ensures o.Labels() == Labelled(BLANK.(labels := old(o.Labels())), instance).labels
  {
    SetManagedBy(o);
    SetInstanceID(o, instance);
  }
}
