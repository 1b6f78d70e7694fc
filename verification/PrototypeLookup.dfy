/** Property lookups as the agents write them. A city table and the tool registry are
    plain object literals, so `table[key]` also finds the members every object inherits
    from `Object.prototype`. This module models those lookups as written, over a small
    universe of JavaScript values, and shows the inputs on which they leave the closed
    tables that `Tools.Lookup` and `Tools.ExecuteTool` model. */
module PrototypeLookup {

  import opened Options
  import opened JsText
  import opened Tools

  /** The JavaScript values these lookups can produce. */
  datatype JsValue =
    | Str(s: string)
    | Arr(items: seq<string>)
    | Bool(b: bool)
    | StringObject(wrapped: string)  // `Object("delhi")`
    | PlainObject                    // `{}`
    | BuiltinFunction(name: string)  // a built-in such as `Object` or `Object.prototype.toString`
    | ObjectPrototype
    | Undefined

  /** The member names an object literal inherits from `Object.prototype`. */
  const InheritedNames: set<string> := {
    "constructor", "__defineGetter__", "__defineSetter__", "hasOwnProperty",
    "__lookupGetter__", "__lookupSetter__", "isPrototypeOf", "propertyIsEnumerable",
    "toString", "valueOf", "__proto__", "toLocaleString"}

  /** The inherited member found under `key`, if any. */
  function Inherited(key: string): (v: Option<JsValue>)
    ensures v.Some? <==> key in InheritedNames
  {
    if key == "__proto__" then Some(ObjectPrototype)
    else if key == "constructor" then Some(BuiltinFunction("Object"))
    else if key in InheritedNames then Some(BuiltinFunction(key))
    else None
  }

  /** `obj[key]` on an object literal with the given own members. */
  function Get(own: map<string, JsValue>, key: string): JsValue {
    if key in own then own[key]
    else match Inherited(key)
      case Some(v) => v
      case None => Undefined
  }

  /** What `||` treats as true. */
  predicate Truthy(v: JsValue) {
    match v
    case Str(s) => s != []
    case Bool(b) => b
    case Undefined => false
    case _ => true
  }

  /** A closed table of arrays as an object literal. */
  function ArrayTable(table: map<string, seq<string>>): map<string, JsValue> {
    map k | k in table :: Arr(table[k])
  }

  /** `table[city.toLowerCase()] || table.default`, as written. */
  function LookupAsWritten(own: map<string, JsValue>, city: string): (v: JsValue)
    ensures Lower(city) in own && Truthy(own[Lower(city)]) ==> v == own[Lower(city)]
    ensures Lower(city) in own && !Truthy(own[Lower(city)]) ==> v == Get(own, "default")
    // an inherited member is always truthy, so it is returned instead of the default
    ensures Lower(city) !in own && Lower(city) in InheritedNames ==> v == Inherited(Lower(city)).value
    ensures Lower(city) !in own && Lower(city) !in InheritedNames ==> v == Get(own, "default")
  {
    var v := Get(own, Lower(city));
    if Truthy(v) then v else Get(own, "default")
  }

  /** A lowercase inherited name used as a city finds the inherited member: `constructor`
      yields the `Object` function and `__proto__` yields `Object.prototype`, not the
      table's default entry. */
  lemma InheritedCityLeaks(table: map<string, seq<string>>, city: string)
    requires WellFormedTable(table)
    requires Lower(city) in InheritedNames
    ensures LookupAsWritten(ArrayTable(table), city) == Inherited(Lower(city)).value
    ensures LookupAsWritten(ArrayTable(table), city) != Arr(table["default"])
  {
    assert Lower(city) !in ArrayTable(table);
  }

  /** The concrete case: the food table asked about the city "constructor". */
  lemma ConstructorCityLeaks()
    ensures LookupAsWritten(ArrayTable(Food), "constructor") == BuiltinFunction("Object")
  {
    ConstructorIsLowercase();
    FoodWellFormed();
    InheritedCityLeaks(Food, "constructor");
  }

  lemma ConstructorIsLowercase()
    ensures Lower("constructor") == "constructor"
  {
    LowerOfLowercase("constructor");
  }

  lemma FoodWellFormed()
    ensures WellFormedTable(Food)
  {
  }

  /** `list.join(', ')`: only an array has it; on anything else the call throws (`None`). */
  function JoinAsWritten(v: JsValue, sep: string): Option<string> {
    match v
    case Arr(items) => Some(Join(items, sep))
    case _ => None
  }

  /** The answer of the `catch` branch of the cascading interpreter. */
  const TroubleMessage := "I'm having trouble processing that " + "request right now."

  /** The extractor's food answer as written: the lookup, the `join`, and the `catch`
      that turns a throw into the trouble message. */
  function FoodListingAsWritten(city: string): (s: string)
    ensures Lower(city) in InheritedNames ==> s == TroubleMessage
    ensures Lower(city) !in InheritedNames
            ==> s == "Famous foods in " + Capitalize(city) + ": " + Join(Lookup(Food, city), ", ")
  {
    FoodWellFormed();
    if Lower(city) !in InheritedNames then
      LookupAgreesOffPrototype(Food, city);
      ListingOf(city)
    else
      InheritedCityLeaks(Food, city);
      ListingOf(city)
  }

  /** The listing, or the trouble message when `join` throws. */
  function ListingOf(city: string): string {
    match JoinAsWritten(LookupAsWritten(ArrayTable(Food), city), ", ")
    case None => TroubleMessage
    case Some(list) => "Famous foods in " + Capitalize(city) + ": " + list
  }

  /** As written, "tell me about constructor food" ends in the trouble message. */
  lemma ConstructorFoodThrows()
    ensures FoodListingAsWritten("constructor") == TroubleMessage
  {
    ConstructorCityLeaks();
  }

  /** Corrected: the closed table gives every inherited name the default entry. */
  lemma InheritedCityGetsDefault<V>(table: map<string, V>, city: string)
    requires WellFormedTable(table)
    requires Lower(city) in InheritedNames
    ensures Lookup(table, city) == table["default"]
  {
  }

  /** On the closed tables the as-written lookup and the corrected one agree. */
  lemma LookupAgreesOffPrototype(table: map<string, seq<string>>, city: string)
    requires WellFormedTable(table)
    requires Lower(city) !in InheritedNames
    ensures LookupAsWritten(ArrayTable(table), city) == Arr(Lookup(table, city))
  {
  }

  /** `executeTool(action)` as written: the registry is an object literal, so an inherited
      member passes the `if (!tool)` test and is called with `this` undefined, under the
      rules of section 20.1.3 of ECMA-262. */
  function ExecuteToolAsWritten(name: string, input: Option<string>): (r: JsValue)
    // off the inherited names it is the closed registry
    ensures name !in InheritedNames ==> r == AsJs(ExecuteTool(name, input))
    // an inherited member other than these three throws when called with `this` undefined
    ensures name in InheritedNames && name != "toString" && name != "isPrototypeOf" && name != "constructor"
            ==> r == Str(ErrorText(name))
  {
    InheritedNotRegistered(name);
    match ToolByName(name)
    case Some(t) =>
      if input.None? then Str(ErrorText(name))
      else
        (match Apply(t, input.value)
         case Text(s) => Str(s)
         case List(items) => Arr(items))
    case None =>
      if name == "toString" then Str("[object Undefined]")
      else if name == "isPrototypeOf" then Bool(false)
      else if name == "constructor" then (if input.Some? then StringObject(input.value) else PlainObject)
      else Str(ErrorText(name))
  }

  /** Every registered name starts with `get`, and no inherited name starts with `g`. */
  lemma InheritedNotRegistered(name: string)
    ensures name in InheritedNames ==> ToolByName(name).None?
  {
    if name in InheritedNames {
      assert name != [] && name[0] != 'g';
    }
  }

  /** A tool answer as a JavaScript value. */
  function AsJs(r: ToolResult): JsValue {
    match r
    case Text(s) => Str(s)
    case List(items) => Arr(items)
  }

  /** As written, three inherited names run as tools instead of failing. */
  lemma InheritedToolsRun(input: Option<string>)
    ensures ExecuteToolAsWritten("toString", input) == Str("[object Undefined]")
    ensures ExecuteToolAsWritten("isPrototypeOf", input) == Bool(false)
    ensures input.Some? ==> ExecuteToolAsWritten("constructor", input) == StringObject(input.value)
    ensures ExecuteToolAsWritten("toString", input) != Str(ErrorText("toString"))
  {
    InheritedNotRegistered("toString");
    InheritedNotRegistered("isPrototypeOf");
    InheritedNotRegistered("constructor");
    assert ErrorText("toString")[..5] == "Error";
  }

  /** Corrected: the closed registry reports every inherited name as an error. */
  lemma ClosedRegistryRejectsInherited(name: string, input: Option<string>)
    requires name in InheritedNames
    ensures ExecuteTool(name, input) == Text(ErrorText(name))
  {
    InheritedNotRegistered(name);
  }
}
