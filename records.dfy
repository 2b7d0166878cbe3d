/**
 * Untyped records (the dictionaries passed between the layers) and the
 * `from_dict` constructor added to outgoing dataclasses by `add_from_dict`:
 * keep only the keys that are fields of the dataclass, then construct it,
 * which fails when a field without a default is missing.
 */
module Records {
  import opened Wrappers

  datatype Value =
    | Null
    | Int(i: int)
    | Str(s: string)
    | Bool(b: bool)
    | ObjectId(key: nat)
    | List(items: seq<Value>)
    | Object(entries: map<string, Value>)

  type Dict = map<string, Value>

  /** A dataclass field: its name and its default value, if it has one. */
  datatype Field = Field(name: string, default: Option<Value>)

  /** An optional string as a record value: the string, or None. */
  function OptionalString(s: Option<string>): (v: Value)
    ensures v.Null? <==> s.None?
    ensures s.Some? ==> v == Str(s.value)
  {
    if s.Some? then Str(s.value) else Null
  }

  /** The names of the dataclass's fields. */
  function FieldNames(fields: seq<Field>): (names: set<string>)
    ensures forall i :: 0 <= i < |fields| ==> fields[i].name in names
    ensures forall n :: n in names ==> exists i :: 0 <= i < |fields| && fields[i].name == n
  {
    set i | 0 <= i < |fields| :: fields[i].name
  }

  /** The input entries whose keys are field names; every other entry is dropped. */
  function Incoming(fields: seq<Field>, data: Dict): (r: Dict)
    ensures r.Keys == data.Keys * FieldNames(fields)
    ensures forall k :: k in r ==> r[k] == data[k]
  {
    map k | k in data && k in FieldNames(fields) :: data[k]
  }

  /** The default of the first field called `n`. */
  function DefaultOf(fields: seq<Field>, n: string): Option<Value> {
    if fields == [] then None
    else if fields[0].name == n then fields[0].default
    else DefaultOf(fields[1..], n)
  }

  /** Every field is either given or has a default. */
  predicate Complete(fields: seq<Field>, given: Dict) {
    forall i :: 0 <= i < |fields| ==> fields[i].name in given || fields[i].default.Some?
  }

  lemma {:induction false} DefaultOfComplete(fields: seq<Field>, given: Dict, n: string)
    requires Complete(fields, given) && n in FieldNames(fields) && n !in given
    ensures DefaultOf(fields, n).Some?
  {
    if fields[0].name != n {
      assert n in FieldNames(fields[1..]) by {
        var i :| 0 <= i < |fields| && fields[i].name == n;
        assert fields[1..][i - 1] == fields[i];
      }
      assert Complete(fields[1..], given) by {
        forall i | 0 <= i < |fields[1..]|
          ensures fields[1..][i].name in given || fields[1..][i].default.Some?
        {
          assert fields[1..][i] == fields[i + 1];
        }
      }
      DefaultOfComplete(fields[1..], given, n);
    }
  }

  /**
   * The dataclass constructor applied to the projected entries: the instance, seen as the map from each field name to
   * its value, or MissingField when a field without a default is not given.
   */
  function Construct(fields: seq<Field>, given: Dict): (r: Result<Dict>)
    requires given.Keys <= FieldNames(fields)
    ensures r.Ok? <==> Complete(fields, given)
    ensures r.Ok? ==> r.value.Keys == FieldNames(fields)
    ensures r.Ok? ==> forall k :: k in given ==> r.value[k] == given[k]
    ensures r.Ok? ==> forall n :: n in FieldNames(fields) && n !in given ==>
      DefaultOf(fields, n).Some? && r.value[n] == DefaultOf(fields, n).value
    ensures r.Err? ==> r.error == MissingField
  {
    if Complete(fields, given) then
      var inst := map n | n in FieldNames(fields) ::
        if n in given then given[n]
        else (DefaultOfComplete(fields, given, n); DefaultOf(fields, n).value);
      assert forall n :: n in FieldNames(fields) && n !in given ==>
        DefaultOf(fields, n).Some? && inst[n] == DefaultOf(fields, n).value by {
        forall n | n in FieldNames(fields) && n !in given
          ensures DefaultOf(fields, n).Some? && inst[n] == DefaultOf(fields, n).value
        {
          DefaultOfComplete(fields, given, n);
        }
      }
      Ok(inst)
    else Err(MissingField)
  }

  /** `from_dict`: project the input onto the fields, then construct. */
  function FromDict(fields: seq<Field>, data: Dict): Result<Dict> {
    Construct(fields, Incoming(fields, data))
  }

  /**
   * Construction succeeds exactly when every field without a default is a
   * key of the input; then the instance has exactly the dataclass's fields,
   * keeps every input value of a field unchanged and silently ignores every
   * other input key.
   */
  lemma FromDictSpec(fields: seq<Field>, data: Dict)
    ensures FromDict(fields, data).Ok? <==>
      forall i :: 0 <= i < |fields| ==> fields[i].name in data || fields[i].default.Some?
    ensures FromDict(fields, data).Err? ==> FromDict(fields, data).error == MissingField
    ensures FromDict(fields, data).Ok? ==>
      && FromDict(fields, data).value.Keys == FieldNames(fields)
      && (forall k :: k in data && k in FieldNames(fields) ==> FromDict(fields, data).value[k] == data[k])
      && (forall n :: n in FieldNames(fields) && n !in data ==>
            DefaultOf(fields, n).Some? && FromDict(fields, data).value[n] == DefaultOf(fields, n).value)
  {
    var given := Incoming(fields, data);
    assert forall i :: 0 <= i < |fields| ==> (fields[i].name in given <==> fields[i].name in data);
  }

  /** Projecting an already projected record changes nothing. */
  lemma IncomingIdempotent(fields: seq<Field>, data: Dict)
    ensures Incoming(fields, Incoming(fields, data)) == Incoming(fields, data)
  {
  }

  /** Constructing again from a constructed instance gives the same instance. */
  lemma {:induction false} FromDictOfInstance(fields: seq<Field>, data: Dict)
    requires FromDict(fields, data).Ok?
    ensures FromDict(fields, FromDict(fields, data).value) == FromDict(fields, data)
  {
    var inst := FromDict(fields, data).value;
    var given := Incoming(fields, inst);
    assert given == inst;
    assert Complete(fields, inst) by {
      forall i | 0 <= i < |fields| ensures fields[i].name in inst {
      }
    }
    var again := Construct(fields, inst).value;
    assert again.Keys == inst.Keys;
    assert forall k :: k in inst ==> again[k] == inst[k];
    assert again == inst;
  }

  /**
   * The fields of the outgoing message dataclass, in declaration order; only
   * the last, `reject_reason`, has a default, None.
   */
  function OutgoingMessageFields(): (fields: seq<Field>)
    ensures |fields| == 12
    ensures forall i :: 0 <= i < |fields| ==> (fields[i].default.Some? <==> i == |fields| - 1)
    ensures fields[|fields| - 1] == Field("reject_reason", Some(Null))
  {
    [ Field("id", None), Field("client_message_id", None), Field("chat_id", None),
      Field("sender_id", None), Field("recipient_id", None), Field("status", None),
      Field("sent_at", None), Field("delivered_at", None), Field("body", None),
      Field("is_edited", None), Field("is_deleted", None), Field("reject_reason", Some(Null)) ]
  }

  /** The field names the outgoing message dataclass declares. */
  const OutgoingMessageNames: set<string> :=
    {"id", "client_message_id", "chat_id", "sender_id", "recipient_id", "status",
     "sent_at", "delivered_at", "body", "is_edited", "is_deleted", "reject_reason"}

  /** The outgoing message dataclass has exactly these twelve field names. */
  lemma OutgoingMessageFieldNames()
    ensures FieldNames(OutgoingMessageFields()) == OutgoingMessageNames
  {
    var fields := OutgoingMessageFields();
    forall n | n in FieldNames(fields) ensures n in OutgoingMessageNames {
      var i :| 0 <= i < |fields| && fields[i].name == n;
      OutgoingNameDeclared(i);
    }
    forall n | n in OutgoingMessageNames ensures n in FieldNames(fields) {
      var i :| i in {0, 1, 2, 3, 4, 5, 6, 7, 8, 9, 10, 11} && fields[i].name == n;
    }
  }

  lemma OutgoingNameDeclared(i: nat)
    requires i < 12
    ensures OutgoingMessageFields()[i].name in OutgoingMessageNames
  {
    assert i in {0, 1, 2, 3, 4, 5, 6, 7, 8, 9, 10, 11};
  }

  /** The fields of the outgoing chat dataclass, neither with a default. */
  function ChatOutFields(): (fields: seq<Field>)
    ensures FieldNames(fields) == {"id", "related_users"} && |fields| == 2
    ensures forall i :: 0 <= i < |fields| ==> fields[i].default.None?
  {
    var fields := [Field("id", None), Field("related_users", None)];
    assert FieldNames(fields) == {"id", "related_users"} by {
      forall n | n in FieldNames(fields) ensures n in {"id", "related_users"} {
        var i :| 0 <= i < |fields| && fields[i].name == n;
        assert i in {0, 1};
      }
      assert fields[0].name in FieldNames(fields) && fields[1].name in FieldNames(fields);
    }
    fields
  }
}
