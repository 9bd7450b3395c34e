/**
 * `MarkupTextField`: a text field stored in two columns of a model instance,
 * the raw markup under the field's name and its rendered form under a
 * companion name. The instance's attribute dictionary is a map from
 * attribute names to values, updated in place by the field's descriptor and
 * by the pre-save hook.
 */
module MarkupFields {
  import opened Wrappers

  /** The column that caches the rendered markup of field `name`. */
  function RenderedFieldName(name: string): (r: string)
    ensures |r| == |name| + 10
    ensures r[0] == '_' && r[|r| - 9..] == "_rendered"
    ensures r[1..|r| - 9] == name
  {
    "_" + name + "_rendered"
  }

  /** The rendered column never shadows the raw one. */
  lemma RenderedFieldNameDiffers(name: string)
    ensures RenderedFieldName(name) != name
  {
  }

  /** Distinct fields get distinct rendered columns: the field name is what lies between the prefix and the suffix. */
  lemma RenderedFieldNameInjective(a: string, b: string)
    requires RenderedFieldName(a) == RenderedFieldName(b)
    ensures a == b
  {
    var r := RenderedFieldName(a);
    assert a == r[1..|r| - 9];
    assert b == RenderedFieldName(b)[1..|r| - 9];
  }

  /** A value held in the attribute dictionary: Python `None` or a string. */
  datatype Value = Null | Text(s: string)

  /** The exceptions the modelled code lets escape. */
  datatype PyError = AttributeError | KeyError

  /** A model instance; `attributes` is its `__dict__`. */
  class Instance {
    var attributes: map<string, Value>

    constructor (attributes: map<string, Value>)
      ensures this.attributes == attributes
    {
      this.attributes := attributes;
    }
  }

  /** The wrapper the descriptor hands out: it reads through to the instance it was built for. */
  class MarkupText {
    const instance: Instance
    const fieldName: string
    const renderedFieldName: string

    constructor (instance: Instance, fieldName: string, renderedFieldName: string)
      ensures this.instance == instance && this.fieldName == fieldName
      ensures this.renderedFieldName == renderedFieldName
    {
      this.instance := instance;
      this.fieldName := fieldName;
      this.renderedFieldName := renderedFieldName;
    }

    /** `raw`: the instance's current value under the field name; `KeyError` when it has none. */
    function Raw(): (r: Result<Value, PyError>)
      reads instance
      ensures r.Success? <==> fieldName in instance.attributes
      ensures r.Success? ==> r.value == instance.attributes[fieldName]
      ensures r.Failure? ==> r.error == KeyError
    {
      if fieldName in instance.attributes then Success(instance.attributes[fieldName]) else Failure(KeyError)
    }

    /** `rendered`: the instance's attribute under the rendered name; `AttributeError` when it has none. */
    function Rendered(): (r: Result<Value, PyError>)
      reads instance
      ensures r.Success? <==> renderedFieldName in instance.attributes
      ensures r.Success? ==> r.value == instance.attributes[renderedFieldName]
      ensures r.Failure? ==> r.error == AttributeError
    {
      if renderedFieldName in instance.attributes then Success(instance.attributes[renderedFieldName])
      else Failure(AttributeError)
    }

    /**
     * Assigning to `raw` sets the field on the instance; with a plain value,
     * the field's descriptor writes the raw key only.
     */
    method SetRaw(value: Value)
      modifies instance
      ensures instance.attributes == old(instance.attributes)[fieldName := value]
      ensures Raw() == Success(value)
    {
      instance.attributes := instance.attributes[fieldName := value];
    }
  }

  /** What is assigned to the field: a plain value, or a wrapper taken from some instance. */
  datatype Assigned = Plain(value: Value) | Wrapper(markup: MarkupText)

  /** The attribute descriptor the field installs on its model class. */
  class MarkupTextDescriptor {
    const fieldName: string
    const renderedFieldName: string := RenderedFieldName(fieldName)

    constructor (fieldName: string)
      ensures this.fieldName == fieldName
      ensures renderedFieldName == RenderedFieldName(fieldName)
    {
      this.fieldName := fieldName;
    }

    /**
     * `__get__`: `AttributeError` on the class itself, `KeyError` when the
     * instance has no raw value, `None` when the raw value is `None`, and
     * otherwise a fresh wrapper over the instance whose `raw` is the stored value.
     */
    method Get(instance: Instance?) returns (r: Result<MarkupText?, PyError>)
      ensures instance == null ==> r == Failure(AttributeError)
      ensures instance != null && fieldName !in instance.attributes ==> r == Failure(KeyError)
      ensures instance != null && fieldName in instance.attributes ==>
        r.Success? && (r.value == null <==> instance.attributes[fieldName] == Null)
      ensures r.Success? && r.value != null ==>
        fresh(r.value) && r.value.instance == instance &&
        r.value.fieldName == fieldName && r.value.renderedFieldName == renderedFieldName &&
        r.value.Raw() == Success(instance.attributes[fieldName])
    {
      if instance == null {
        return Failure(AttributeError);
      }
      if fieldName !in instance.attributes {
        return Failure(KeyError);
      }
      var raw := instance.attributes[fieldName];
      if raw == Null {
        return Success(null);
      }
      var markup := new MarkupText(instance, fieldName, renderedFieldName);
      return Success(markup);
    }

    /**
     * `__set__`. A plain value is written under the raw key alone. A wrapper
     * has its `raw` written under the raw key, then its `rendered` read (after
     * that write, which matters when the wrapper reads through to this very
     * instance) and written under the rendered key. A failing read raises:
     * `KeyError` before anything is written, `AttributeError` after the raw key
     * is written. No other key changes.
     */
    method Set(instance: Instance, value: Assigned) returns (err: Option<PyError>)
      modifies instance
      ensures value.Plain? ==> err == None && instance.attributes == old(instance.attributes)[fieldName := value.value]
      ensures value.Plain? && renderedFieldName in old(instance.attributes) ==>
        renderedFieldName in instance.attributes &&
        instance.attributes[renderedFieldName] == old(instance.attributes[renderedFieldName])
      ensures value.Wrapper? ==>
        var source := value.markup;
        if source.fieldName !in old(source.instance.attributes) then
          err == Some(KeyError) && instance.attributes == old(instance.attributes)
        else
          var written := old(instance.attributes)[fieldName := old(source.instance.attributes)[source.fieldName]];
          var seen := if source.instance == instance then written else old(source.instance.attributes);
          if source.renderedFieldName !in seen then
            err == Some(AttributeError) && instance.attributes == written
          else
            err == None && instance.attributes == written[renderedFieldName := seen[source.renderedFieldName]]
      ensures instance.attributes.Keys <= old(instance.attributes).Keys + {fieldName, renderedFieldName}
      ensures forall k :: k in old(instance.attributes) && k != fieldName && k != renderedFieldName ==>
        k in instance.attributes && instance.attributes[k] == old(instance.attributes[k])
    {
      RenderedFieldNameDiffers(fieldName);
      match value
      case Plain(v) =>
        instance.attributes := instance.attributes[fieldName := v];
        err := None;
      case Wrapper(source) =>
        var raw := source.Raw();
        if raw.Failure? {
          return Some(raw.error);
        }
        instance.attributes := instance.attributes[fieldName := raw.value];
        var rendered := source.Rendered();
        if rendered.Failure? {
          return Some(rendered.error);
        }
        instance.attributes := instance.attributes[renderedFieldName := rendered.value];
        err := None;
    }
  }

  /** `get_db_prep_value`: a wrapper is stored as its `raw`, anything else as itself. */
  function GetDbPrepValue(value: Assigned): (r: Result<Value, PyError>)
    reads if value.Wrapper? then {value.markup.instance} else {}
    ensures value.Plain? ==> r == Success(value.value)
    ensures value.Wrapper? ==> r == value.markup.Raw()
  {
    match value
    case Plain(v) => Success(v)
    case Wrapper(markup) => markup.Raw()
  }

  /**
   * What reaches the database after a plain assignment: the value is set
   * through the descriptor, read back through it, and prepared with
   * `get_db_prep_value`. The stored column is the assigned value, whatever the
   * rendered column holds.
   */
  method AssignThenPrepare(descriptor: MarkupTextDescriptor, instance: Instance, value: Value)
    returns (stored: Result<Value, PyError>)
    modifies instance
    ensures stored == Success(value)
    ensures instance.attributes == old(instance.attributes)[descriptor.fieldName := value]
  {
    var err := descriptor.Set(instance, Plain(value));
    var got := descriptor.Get(instance);
    if got.value == null {
      stored := GetDbPrepValue(Plain(Null));
    } else {
      stored := GetDbPrepValue(Wrapper(got.value));
    }
  }

  /** The field itself, as far as rendering before save is concerned. */
  class MarkupTextField {
    const attname: string
    const descriptor: MarkupTextDescriptor

    /** The descriptor installed for this field reads and writes this field's name. */
    predicate Valid() {
      descriptor.fieldName == attname
    }

    /** The field named `name` together with the descriptor it installs on its model class. */
    constructor (name: string)
      ensures Valid() && attname == name
      ensures descriptor.renderedFieldName == RenderedFieldName(name)
      ensures fresh(descriptor)
    {
      attname := name;
      descriptor := new MarkupTextDescriptor(name);
    }

    /**
     * `render_data`, the pre-save hook: reads the field through its
     * descriptor and sets the rendered key to `render(raw)` when it gets a
     * wrapper and to `None` when it gets `None`. A missing raw value raises
     * `KeyError` and writes nothing. No other key changes.
     */
    method RenderData(instance: Instance, render: string -> string) returns (err: Option<PyError>)
      requires Valid()
      modifies instance
      ensures attname !in old(instance.attributes) ==>
        err == Some(KeyError) && instance.attributes == old(instance.attributes)
      ensures attname in old(instance.attributes) ==>
        err == None &&
        instance.attributes == old(instance.attributes)[RenderedFieldName(attname) :=
          match old(instance.attributes[attname])
          case Null => Null
          case Text(s) => Text(render(s))]
    {
      var got := descriptor.Get(instance);
      if got.Failure? {
        return Some(got.error);
      }
      var rendered := Null;
      if got.value != null {
        var raw := got.value.Raw();
        match raw.value {
          case Text(s) => rendered := Text(render(s));
          case Null => assert false;
        }
      }
      instance.attributes := instance.attributes[RenderedFieldName(attname) := rendered];
      err := None;
    }
  }
}
