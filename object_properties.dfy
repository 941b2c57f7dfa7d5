/**
 * The vocabulary the game-object components share: object identifiers and
 * the `Properties` bag a component is loaded from and saved to (a map from
 * names to values of a few kinds).
 */
module ObjectProperties {
  import opened Common

  /** An object's identifier; the default-constructed one is -1 and denotes no object. */
  datatype ObjectID = ObjectID(value: int)
  {
    predicate IsValid() { value >= 0 }
  }

  const NoObject: ObjectID := ObjectID(-1)

  /** The kinds of value the components considered here store in their properties. */
  datatype Property = Text(text: string) | TextList(texts: seq<string>) | Object(id: ObjectID)

  type Properties = map<string, Property>

  /** What a component's `save` returns: its component name and its properties. */
  datatype Saved = Saved(component: string, properties: Properties)

  const MissingProperty := "Missing property: "
  const WrongPropertyType := "Property of the wrong type: "

  /** `get<std::string>(name)`: the string stored under name; a missing name or another kind of value is an error. */
  function GetText(props: Properties, name: string): (r: Result<string>)
    ensures r.Ok? <==> name in props && props[name].Text?
    ensures r.Ok? ==> r.value == props[name].text
  {
    if name !in props then Err(MissingProperty + name)
    else match props[name]
      case Text(t) => Ok(t)
      case _ => Err(WrongPropertyType + name)
  }

  /** `get<std::vector<std::string> >(name)`. */
  function GetTextList(props: Properties, name: string): (r: Result<seq<string>>)
    ensures r.Ok? <==> name in props && props[name].TextList?
    ensures r.Ok? ==> r.value == props[name].texts
  {
    if name !in props then Err(MissingProperty + name)
    else match props[name]
      case TextList(ts) => Ok(ts)
      case _ => Err(WrongPropertyType + name)
  }

  /** `get<ObjectID>(name)`. */
  function GetObject(props: Properties, name: string): (r: Result<ObjectID>)
    ensures r.Ok? <==> name in props && props[name].Object?
    ensures r.Ok? ==> r.value == props[name].id
  {
    if name !in props then Err(MissingProperty + name)
    else match props[name]
      case Object(id) => Ok(id)
      case _ => Err(WrongPropertyType + name)
  }
}
