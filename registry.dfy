/** The field registry (`logfields`): for each lower-case key the schema name
    of a log-record field and whether it is printed; the display order
    (`vlogfields`); and the enable/disable update (cmdManageField). */
module Registry {
  import opened Strings

  /** logfield_t: a schema field name and its enabled flag. */
  datatype LogField = LogField(name: string, enabled: bool)

  /** The registry as the program starts with it. */
  const InitialFields: map<string, LogField> := map[
    "tags" := LogField("tags", true),
    "sourceobject" := LogField("SourceObject", true),
    "thread" := LogField("Thread", false),
    "loglevel" := LogField("LogLevel", true),
    "timestamp" := LogField("TimeStamp", true),
    "logid" := LogField("LogId", false),
    "process" := LogField("Process", false),
    "host" := LogField("Host", false),
    "text" := LogField("text", true),
    "file" := LogField("File", false),
    "routine" := LogField("Routine", false),
    "line" := LogField("Line", false),
    "data" := LogField("Data", false)
  ]

  /** The keys of the entries `vlogfields` points at, in display order. The
      addresses it holds stay valid because no entry is ever erased, and a flag changed
      through the registry is seen through them: the model looks each key up
      in the current registry. */
  const DisplayOrder: seq<string> := [
    "tags", "logid", "timestamp", "loglevel", "host", "process", "thread",
    "sourceobject", "routine", "file", "line", "text", "data"
  ]

  /** What every registry state shares with the initial one: the same keys, each
      with the same schema name. Only the flags ever change. */
  predicate SameShape(fields: map<string, LogField>)
  {
    fields.Keys == InitialFields.Keys
    && forall k :: k in fields ==> fields[k].name == InitialFields[k].name
  }

  /** The display order contains each registry key exactly once, so every
      entry of `vlogfields` refers to a registry entry. */
  lemma DisplayOrderCoversRegistry()
    ensures |DisplayOrder| == 13
    ensures forall i, j :: 0 <= i < j < |DisplayOrder| ==> DisplayOrder[i] != DisplayOrder[j]
    ensures forall k :: k in DisplayOrder <==> k in InitialFields
  {
  }

  /** The fields printed when the program starts. */
  lemma InitiallyEnabled()
    ensures forall k :: k in InitialFields ==>
      (InitialFields[k].enabled <==> k in ["tags", "sourceobject", "loglevel", "timestamp", "text"])
  {
  }

  lemma LowerMatches(s: string, t: string)
    requires |s| == |t| && forall i :: 0 <= i < |s| ==> LowerChar(s[i]) == t[i]
    ensures Lower(s) == t
  {
  }

  /** Registry keys are at most 14 bytes long, and as long as their schema
      names. */
  lemma KeyLengths()
    ensures forall k :: k in InitialFields ==> |k| <= 14 && |InitialFields[k].name| == |k|
  {
  }

  /** Keys are the lower-cased schema names, so a field can be named by either. */
  lemma KeysAreLowerCasedNames()
    ensures forall k :: k in InitialFields ==> Lower(InitialFields[k].name) == k
  {
    forall k | k in InitialFields
      ensures Lower(InitialFields[k].name) == k
    {
      LowerMatches(InitialFields[k].name, k);
    }
  }

  /** Every key of the display order is in the registry. */
  predicate Displayable(fields: map<string, LogField>)
  {
    forall i :: 0 <= i < |DisplayOrder| ==> DisplayOrder[i] in fields
  }

  /** The registry entries `vlogfields` points at, in display order. */
  function Shown(fields: map<string, LogField>): seq<LogField>
    requires Displayable(fields)
  {
    seq(|DisplayOrder|, i requires 0 <= i < |DisplayOrder| => fields[DisplayOrder[i]])
  }

  /** `vlogfields` points into the registry, so enable/disable is seen
      through it: after the update exactly the display slot of the
      lower-cased key shows the new flag, every other slot shows what it
      showed before, and an unknown key changes nothing that is shown. */
  lemma ShownAfterManage(fields: map<string, LogField>, name: string, enable: bool)
    requires Displayable(fields)
    ensures Displayable(ManagedFields(fields, name, enable))
    ensures Lower(name) in fields ==> forall i :: 0 <= i < |DisplayOrder| ==>
      Shown(ManagedFields(fields, name, enable))[i] ==
        if DisplayOrder[i] == Lower(name) then fields[Lower(name)].(enabled := enable) else Shown(fields)[i]
    ensures Lower(name) !in fields ==> Shown(ManagedFields(fields, name, enable)) == Shown(fields)
  {
    ManagedFieldsSpec(fields, name, enable);
  }

  /** Every registry state shows all its entries. */
  lemma ShapeIsDisplayable(fields: map<string, LogField>)
    requires SameShape(fields)
    ensures Displayable(fields)
  {
    DisplayOrderCoversRegistry();
  }

  /** The registry after cmdManageField(field, enable): the key is lower-cased
      first; a known key gets the new flag and nothing else changes; an unknown
      key changes nothing. */
  function ManagedFields(fields: map<string, LogField>, field: string, enable: bool): map<string, LogField>
  {
    var key := Lower(field);
    if key in fields then fields[key := fields[key].(enabled := enable)] else fields
  }

  lemma ManagedFieldsSpec(fields: map<string, LogField>, field: string, enable: bool)
    ensures ManagedFields(fields, field, enable).Keys == fields.Keys
    ensures forall k :: k in fields ==> ManagedFields(fields, field, enable)[k].name == fields[k].name
    ensures forall k :: k in fields && k != Lower(field) ==> ManagedFields(fields, field, enable)[k] == fields[k]
    ensures Lower(field) in fields ==> ManagedFields(fields, field, enable)[Lower(field)].enabled == enable
    ensures Lower(field) !in fields ==> ManagedFields(fields, field, enable) == fields
  {
  }

  /** What cmdManageField prints: a diagnostic naming the lower-cased key when
      the registry does not know it, nothing otherwise. */
  function ManageMessage(fields: map<string, LogField>, field: string): (out: string)
    ensures Lower(field) in fields <==> out == ""
    ensures Lower(field) !in fields ==> out == Lower(field) + " unvalid field name\n"
  {
    var key := Lower(field);
    if key in fields then "" else key + " unvalid field name\n"
  }

  /** enable/disable keeps the registry's shape. */
  lemma ManagedFieldsKeepsShape(fields: map<string, LogField>, field: string, enable: bool)
    requires SameShape(fields)
    ensures SameShape(ManagedFields(fields, field, enable))
  {
    ManagedFieldsSpec(fields, field, enable);
  }

  /** A field can be enabled by its schema name in any letter case: the
      mixed-case name and the key select the same entry. */
  lemma ManageBySchemaName(fields: map<string, LogField>, k: string, enable: bool)
    requires SameShape(fields) && k in fields
    ensures Lower(fields[k].name) == k
    ensures ManagedFields(fields, fields[k].name, enable) == fields[k := fields[k].(enabled := enable)]
    ensures ManageMessage(fields, fields[k].name) == ""
  {
    KeysAreLowerCasedNames();
  }
}
