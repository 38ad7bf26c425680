// The schema validator of src/council/validate.js over JSON values.
module Schema {
  import opened Text

  datatype Json =
    | JNull
    | JBoolean(flag: bool)
    | JNumber(finite: bool)
    | JText(text: string)
    | JArray(items: seq<Json>)
    | JObject(fields: map<string, Json>)

  datatype Type = TextType | NumberType | BooleanType | ObjectType

  // items is either the name of a JavaScript type or a schema.
  datatype Items = Named(name: Type) | Each(schema: Schema)
  datatype Property = Property(name: string, schema: Schema)

  datatype Schema =
    | Anything
    | ArrayOf(minItems: nat, items: Items)
    | ObjectOf(required: seq<string>, properties: seq<Property>)
    | TextOf(minLength: nat, choices: Option<seq<string>>)
    | NumberOf
    | BooleanOf

  datatype Place = Root | Field(of: Place, name: string) | Index(of: Place, index: nat)
  datatype Problem = NotAnArray | TooFewItems | WrongType | NotAnObject | IsRequired | NotText | TooShort
                   | NotAChoice | NotANumber | NotABoolean
  datatype Fault = Fault(place: Place, problem: Problem)

  // JavaScript's typeof
  function TypeOf(v: Json): Type {
    match v
    case JNull => ObjectType
    case JBoolean(_) => BooleanType
    case JNumber(_) => NumberType
    case JText(_) => TextType
    case JArray(_) => ObjectType
    case JObject(_) => ObjectType
  }

  // ---- Conformance, declared ----

  predicate Missing(fields: map<string, Json>, name: string) {
    name !in fields || fields[name] == JNull || fields[name] == JText("")
  }

  predicate Conforms(schema: Schema, v: Json)
    decreases schema
  {
    match schema
    case Anything => true
    case ArrayOf(minItems, items) =>
      v.JArray? && |v.items| >= minItems && forall i :: 0 <= i < |v.items| ==> ItemConforms(items, v.items[i])
    case ObjectOf(required, properties) =>
      && v.JObject?
      && (forall name :: name in required ==> !Missing(v.fields, name))
      && (forall i :: 0 <= i < |properties| && properties[i].name in v.fields ==>
            Conforms(properties[i].schema, v.fields[properties[i].name]))
    case TextOf(minLength, choices) =>
      && v.JText?
      && (minLength > 0 ==> |Trim(v.text)| >= minLength)
      && (choices.Some? ==> v.text in choices.value)
    case NumberOf => v.JNumber? && v.finite
    case BooleanOf => v.JBoolean?
  }

  predicate ItemConforms(items: Items, v: Json)
    decreases items
  {
    match items
    case Named(name) => TypeOf(v) == name
    case Each(schema) => Conforms(schema, v)
  }

  // ---- What walk reports ----

  function RequiredFaults(required: seq<string>, fields: map<string, Json>, place: Place): seq<Fault> {
    if required == [] then []
    else
      RequiredFaults(required[..|required| - 1], fields, place)
      + (if Missing(fields, required[|required| - 1]) then [Fault(Field(place, required[|required| - 1]), IsRequired)] else [])
  }

  function TextFaults(minLength: nat, choices: Option<seq<string>>, v: Json, place: Place): seq<Fault> {
    if !v.JText? then [Fault(place, NotText)]
    else if minLength > 0 && |Trim(v.text)| < minLength then [Fault(place, TooShort)]
    else if choices.Some? && v.text !in choices.value then [Fault(place, NotAChoice)]
    else []
  }

  function Faults(schema: Schema, v: Json, place: Place): seq<Fault>
    decreases schema, 0
  {
    match schema
    case Anything => []
    case ArrayOf(minItems, items) =>
      if !v.JArray? then [Fault(place, NotAnArray)]
      else (if |v.items| < minItems then [Fault(place, TooFewItems)] else []) + ItemFaults(items, v.items, |v.items|, place)
    case ObjectOf(required, properties) =>
      if !v.JObject? then [Fault(place, NotAnObject)]
      else RequiredFaults(required, v.fields, place) + PropertyFaults(properties, v.fields, |properties|, place)
    case TextOf(minLength, choices) => TextFaults(minLength, choices, v, place)
    case NumberOf => if v.JNumber? && v.finite then [] else [Fault(place, NotANumber)]
    case BooleanOf => if v.JBoolean? then [] else [Fault(place, NotABoolean)]
  }

  function OneItemFaults(items: Items, v: Json, place: Place): seq<Fault>
    decreases items, 0
  {
    match items
    case Named(name) => if TypeOf(v) == name then [] else [Fault(place, WrongType)]
    case Each(schema) => Faults(schema, v, place)
  }

  // The faults of the first n items.
  function ItemFaults(items: Items, values: seq<Json>, n: nat, place: Place): seq<Fault>
    requires n <= |values|
    decreases items, n + 1
  {
    if n == 0 then []
    else ItemFaults(items, values, n - 1, place) + OneItemFaults(items, values[n - 1], Index(place, n - 1))
  }

  // The faults of the first n declared properties that the value has.
  function PropertyFaults(properties: seq<Property>, fields: map<string, Json>, n: nat, place: Place): seq<Fault>
    requires n <= |properties|
    decreases properties, n
  {
    if n == 0 then []
    else
      var p := properties[n - 1];
      PropertyFaults(properties, fields, n - 1, place)
      + (if p.name in fields then Faults(p.schema, fields[p.name], Field(place, p.name)) else [])
  }

  // ---- Empty exactly when the value conforms ----

  lemma {:induction false} RequiredEmptyIff(required: seq<string>, fields: map<string, Json>, place: Place)
    ensures RequiredFaults(required, fields, place) == [] <==> forall name :: name in required ==> !Missing(fields, name)
  {
    if required != [] {
      var n := |required| - 1;
      RequiredEmptyIff(required[..n], fields, place);
      assert required == required[..n] + [required[n]];
    }
  }

  lemma {:induction false} ItemsEmptyIff(items: Items, values: seq<Json>, n: nat, place: Place)
    requires n <= |values|
    ensures ItemFaults(items, values, n, place) == [] <==> forall i :: 0 <= i < n ==> ItemConforms(items, values[i])
    decreases items, n + 1
  {
    if n > 0 {
      ItemsEmptyIff(items, values, n - 1, place);
      if items.Each? { FaultsEmptyIffConforms(items.schema, values[n - 1], Index(place, n - 1)); }
    }
  }

  lemma {:induction false} PropertiesEmptyIff(properties: seq<Property>, fields: map<string, Json>, n: nat, place: Place)
    requires n <= |properties|
    ensures PropertyFaults(properties, fields, n, place) == [] <==>
            forall i :: 0 <= i < n && properties[i].name in fields ==>
              Conforms(properties[i].schema, fields[properties[i].name])
    decreases properties, n
  {
    if n > 0 {
      PropertiesEmptyIff(properties, fields, n - 1, place);
      var p := properties[n - 1];
      if p.name in fields { FaultsEmptyIffConforms(p.schema, fields[p.name], Field(place, p.name)); }
    }
  }

  // The validator's error list is empty exactly when the value conforms, for every nested schema.
  lemma {:induction false} FaultsEmptyIffConforms(schema: Schema, v: Json, place: Place)
    ensures Faults(schema, v, place) == [] <==> Conforms(schema, v)
    decreases schema, 0
  {
    match schema {
      case ArrayOf(_, items) => if v.JArray? { ItemsEmptyIff(items, v.items, |v.items|, place); }
      case ObjectOf(required, properties) =>
        if v.JObject? {
          RequiredEmptyIff(required, v.fields, place);
          PropertiesEmptyIff(properties, v.fields, |properties|, place);
        }
      case _ =>
    }
  }

  // ---- The code: walk pushes onto one shared list ----

  class Errors {
    var faults: seq<Fault>

    constructor ()
      ensures faults == []
    {
      faults := [];
    }

    method Push(place: Place, problem: Problem)
      modifies this
      ensures faults == old(faults) + [Fault(place, problem)]
    {
      faults := faults + [Fault(place, problem)];
    }
  }

  method Walk(schema: Schema, v: Json, place: Place, errors: Errors)
    modifies errors
    ensures errors.faults == old(errors.faults) + Faults(schema, v, place)
    decreases schema, 1
  {
    hide ItemFaults, PropertyFaults, RequiredFaults, TextFaults;
    match schema {
      case Anything =>
      case ArrayOf(minItems, items) =>
        if !v.JArray? {
          errors.Push(place, NotAnArray);
          return;
        }
        if |v.items| < minItems { errors.Push(place, TooFewItems); }
        WalkItems(items, v.items, place, errors);
      case ObjectOf(required, properties) => WalkObject(required, properties, v, place, errors);
      case TextOf(minLength, choices) => WalkText(minLength, choices, v, place, errors);
      case NumberOf => if !(v.JNumber? && v.finite) { errors.Push(place, NotANumber); }
      case BooleanOf => if !v.JBoolean? { errors.Push(place, NotABoolean); }
    }
  }

  method WalkText(minLength: nat, choices: Option<seq<string>>, v: Json, place: Place, errors: Errors)
    modifies errors
    ensures errors.faults == old(errors.faults) + TextFaults(minLength, choices, v, place)
  {
    if !v.JText? {
      errors.Push(place, NotText);
    } else if minLength > 0 && |Trim(v.text)| < minLength {
      errors.Push(place, TooShort);
    } else if choices.Some? && v.text !in choices.value {
      errors.Push(place, NotAChoice);
    }
  }

  method WalkItems(items: Items, values: seq<Json>, place: Place, errors: Errors)
    modifies errors
    ensures errors.faults == old(errors.faults) + ItemFaults(items, values, |values|, place)
    decreases items, 1
  {
    ghost var before := errors.faults;
    for n := 0 to |values|
      invariant errors.faults == before + ItemFaults(items, values, n, place)
    {
      WalkItem(items, values[n], Index(place, n), errors);
    }
  }

  method WalkItem(items: Items, v: Json, place: Place, errors: Errors)
    modifies errors
    ensures errors.faults == old(errors.faults) + OneItemFaults(items, v, place)
    decreases items, 0
  {
    hide Faults;
    if items.Named? {
      if TypeOf(v) != items.name { errors.Push(place, WrongType); }
    } else {
      Walk(items.schema, v, place, errors);
    }
  }

  method WalkObject(required: seq<string>, properties: seq<Property>, v: Json, place: Place, errors: Errors)
    modifies errors
    ensures errors.faults == old(errors.faults) + Faults(ObjectOf(required, properties), v, place)
    decreases properties, |properties| + 2
  {
    if !v.JObject? {
      errors.Push(place, NotAnObject);
      return;
    }
    hide PropertyFaults, RequiredFaults;
    WalkRequired(required, v.fields, place, errors);
    WalkProperties(properties, v.fields, place, errors);
  }

  method WalkRequired(required: seq<string>, fields: map<string, Json>, place: Place, errors: Errors)
    modifies errors
    ensures errors.faults == old(errors.faults) + RequiredFaults(required, fields, place)
  {
    hide Missing;
    ghost var before := errors.faults;
    for n := 0 to |required|
      invariant errors.faults == before + RequiredFaults(required[..n], fields, place)
    {
      assert required[..n + 1][..n] == required[..n];
      if Missing(fields, required[n]) { errors.Push(Field(place, required[n]), IsRequired); }
    }
    assert required[..|required|] == required;
  }

  method WalkProperties(properties: seq<Property>, fields: map<string, Json>, place: Place, errors: Errors)
    modifies errors
    ensures errors.faults == old(errors.faults) + PropertyFaults(properties, fields, |properties|, place)
    decreases properties, |properties| + 1
  {
    hide Faults;
    ghost var before := errors.faults;
    for n := 0 to |properties|
      invariant errors.faults == before + PropertyFaults(properties, fields, n, place)
    {
      var p := properties[n];
      if p.name in fields { Walk(p.schema, fields[p.name], Field(place, p.name), errors); }
    }
  }

  // validateObject
  method Validate(schema: Schema, v: Json) returns (ok: bool, faults: seq<Fault>)
    ensures ok <==> Conforms(schema, v)
    ensures ok <==> faults == []
  {
    var errors := new Errors();
    Walk(schema, v, Root, errors);
    FaultsEmptyIffConforms(schema, v, Root);
    faults := errors.faults;
    ok := faults == [];
  }

  // What conforming to a schema of an object and of a text means for a value: every required field is there and neither
  // null nor empty, every declared field that is there conforms; the text is long enough without the white space
  // around it, and one of the choices.
  lemma {:induction false} ConformingMeans(required: seq<string>, properties: seq<Property>, minLength: nat,
                                           choices: Option<seq<string>>, v: Json)
    ensures Conforms(ObjectOf(required, properties), v) <==>
            && v.JObject?
            && (forall name :: name in required ==>
                  name in v.fields && v.fields[name] != JNull && v.fields[name] != JText(""))
            && (forall p :: p in properties && p.name in v.fields ==> Conforms(p.schema, v.fields[p.name]))
    ensures Conforms(TextOf(minLength, choices), v) <==>
            && v.JText? && (minLength == 0 || |Trim(v.text)| >= minLength)
            && (choices.Some? ==> exists i :: 0 <= i < |choices.value| && choices.value[i] == v.text)
  {
    if v.JObject? {
      assert (forall p :: p in properties && p.name in v.fields ==> Conforms(p.schema, v.fields[p.name])) <==>
             forall i :: 0 <= i < |properties| && properties[i].name in v.fields ==>
               Conforms(properties[i].schema, v.fields[properties[i].name]);
    }
  }

  // The named type of an item is that of JavaScript's typeof: null and arrays are objects.
  lemma {:induction false} NamedItemsHaveTheirType(name: Type, v: Json)
    ensures ItemConforms(Named(name), v) <==>
            match name
            case TextType => v.JText?
            case NumberType => v.JNumber?
            case BooleanType => v.JBoolean?
            case ObjectType => v.JNull? || v.JArray? || v.JObject?
  {
  }
}
