/**
 * `CmpModelRender`: the component that draws an object's model. What is
 * modelled is its state (the model's name and the highlight flag), its
 * saved properties, and the model matrix it renders the model with.
 */
module ModelRender {
  import opened Common
  import opened ObjectProperties
  import opened Matrices

  const ComponentName := "ModelRender"
  const ModelNameKey := "ModelName"

  /** The model matrix: columns u, -n, v and the translation p. */
  function ModelGrid(p: Vec3, n: Vec3, u: Vec3, v: Vec3): Grid
  {
    Grid(Row(u.x, -n.x, v.x, p.x), Row(u.y, -n.y, v.y, p.y), Row(u.z, -n.z, v.z, p.z))
  }

  /** The columns of the model matrix are u, -n, v and p. */
  lemma ModelGridColumns(p: Vec3, n: Vec3, u: Vec3, v: Vec3)
    ensures var g := ModelGrid(p, n, u, v);
      Column(g, 0) == u && Column(g, 1) == Neg(n) && Column(g, 2) == v && Column(g, 3) == p
  {
  }

  /**
   * The model matrix maps x to u, -y to n and z to v, and moves the origin
   * to p: models face -y, so this places and orients them.
   */
  lemma ModelGridMaps(p: Vec3, n: Vec3, u: Vec3, v: Vec3)
    ensures VectorImage(ModelGrid(p, n, u, v), Vec3(1.0, 0.0, 0.0)) == u
    ensures VectorImage(ModelGrid(p, n, u, v), Vec3(0.0, -1.0, 0.0)) == n
    ensures VectorImage(ModelGrid(p, n, u, v), Vec3(0.0, 0.0, 1.0)) == v
    ensures PointImage(ModelGrid(p, n, u, v), Zero3) == p
  {
  }

  /** `construct_model_matrix`: a matrix of zeros whose twelve entries are then set to the columns u, -n, v and p. */
  method ConstructModelMatrix(p: Vec3, n: Vec3, u: Vec3, v: Vec3) returns (mat: RBTMatrix)
    ensures fresh(mat) && fresh(mat.m) && mat.Valid()
    ensures mat.Value() == ModelGrid(p, n, u, v)
  {
    mat := RBTMatrix.Zeros();
    mat.m[0, 0], mat.m[0, 1], mat.m[0, 2], mat.m[0, 3] := u.x, -n.x, v.x, p.x;
    mat.m[1, 0], mat.m[1, 1], mat.m[1, 2], mat.m[1, 3] := u.y, -n.y, v.y, p.y;
    mat.m[2, 0], mat.m[2, 1], mat.m[2, 2], mat.m[2, 3] := u.z, -n.z, v.z, p.z;
  }

  /** `load`: the model name is the text stored under `ModelName`. */
  function LoadModelName(props: Properties): (r: Result<string>)
    ensures r.Ok? <==> ModelNameKey in props && props[ModelNameKey].Text?
    ensures r.Ok? ==> r.value == props[ModelNameKey].text
  {
    GetText(props, ModelNameKey)
  }

  class CmpModelRender {
    /** The name of the model drawn; no method changes it. */
    const modelName: string
    /** Whether the object's bounding box is drawn too. */
    var highlights: bool

    /** The constructor: the given model, not highlighted. */
    constructor(modelName: string)
      ensures this.modelName == modelName && !highlights
    {
      this.modelName := modelName;
      highlights := false;
    }

    /** `set_highlights`: the flag becomes the argument; the model name is a constant. */
    method SetHighlights(enabled: bool)
      modifies this
      ensures highlights == enabled
    {
      highlights := enabled;
    }

    /** `save`: the component's name and the one property `ModelName`. */
    function Save(): (s: Saved)
      ensures s.component == ComponentName
      ensures LoadModelName(s.properties) == Ok(modelName)
      ensures s.properties.Keys == {ModelNameKey}
    {
      Saved(ComponentName, map[ModelNameKey := Text(modelName)])
    }
  }

  /** `load` rebuilds a component from what it saved: the same model name, not highlighted. */
  method Load(props: Properties) returns (r: Result<CmpModelRender>)
    ensures r.Ok? <==> LoadModelName(props).Ok?
    ensures r.Ok? ==> fresh(r.value) && r.value.modelName == LoadModelName(props).value && !r.value.highlights
  {
    var name :- LoadModelName(props);
    var c := new CmpModelRender(name);
    r := Ok(c);
  }
}
