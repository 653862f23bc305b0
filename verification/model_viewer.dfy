/**
 * The model viewer component as a state machine: the inputs it is created
 * with, the background and lighting variant it builds, the three ways a load
 * can end, the public controls and one animation frame.
 *
 * The rendering library is abstracted away. The scene keeps the background
 * pieces attached to it (each with an identity, so that a removal removes
 * exactly one piece) and the light rigs added to it; the model is a node
 * list with a position, a rotation and a uniform scale.
 */
module ModelViewer {
  import opened Wrappers
  import opened ViewerGeometry
  import opened ViewerMaterials

  /** The `backgroundType` input; `Unrecognised` stands for any other string a caller passes. */
  datatype BackgroundType = Studio | Street | Showroom | Gradient | Custom | Unrecognised

  /** The background variant a build step constructs. */
  datatype Backdrop = StudioSphere | StreetBox | ShowroomRoom | GradientSphere | CustomSphere(url: string)

  /** The lighting variant a build step adds. */
  datatype LightRig = StudioLights | StreetLights | ShowroomLights | DefaultLights

  /** A background object attached to the scene. */
  datatype Piece = Piece(id: nat, backdrop: Backdrop)

  /** The object the `backgroundMesh` field refers to, with its spin about the vertical axis. */
  datatype BackgroundMesh = BackgroundMesh(id: nat, backdrop: Backdrop, rotationY: real)

  datatype Model = Model(nodes: seq<Node>, position: Vec3, rotation: Vec3, scale: real)

  /** The inputs the host sets before the viewer starts. */
  datatype Inputs = Inputs(
    modelPath: string, autoRotate: bool, autoScale: bool, targetSize: real,
    backgroundType: BackgroundType, customBackground: string)

  datatype Viewer = Viewer(
    modelPath: string,
    autoScale: bool,
    targetSize: real,
    backgroundType: BackgroundType,
    customBackground: string,
    model: Option<Model>,
    isLoaded: bool,
    rotationEnabled: bool,
    camera: Camera,
    scene: seq<Piece>,
    backgroundMesh: Option<BackgroundMesh>,
    lights: seq<LightRig>,
    nextId: nat)

  /** What the mesh loader reports: the loaded object (its nodes and bounding box) or an error. */
  datatype LoaderOutcome = Loaded(nodes: seq<Node>, box: Box3) | LoadError

  /** Spin added to the model per frame, and to the studio background per frame. */
  const ModelSpinPerFrame: real := 0.005
  const BackgroundSpinPerFrame: real := 0.0005

  /** Colour of the placeholder shown when there is no model to load or the load fails. */
  const PlaceholderColor: int := 0xFF0000

  /** `setupBackground`: the variant built for a background type. */
  function SetupBackground(t: BackgroundType, customBackground: string): (b: Backdrop)
    ensures b == StudioSphere <==> t == Studio || t == Unrecognised || (t == Custom && customBackground == "")
    ensures b == CustomSphere(customBackground) <==> t == Custom && customBackground != ""
    ensures b == StreetBox <==> t == Street
    ensures b == ShowroomRoom <==> t == Showroom
    ensures b == GradientSphere <==> t == Gradient
  {
    match t
    case Studio => StudioSphere
    case Street => StreetBox
    case Showroom => ShowroomRoom
    case Gradient => GradientSphere
    case Custom => if customBackground != "" then CustomSphere(customBackground) else StudioSphere
    case Unrecognised => StudioSphere
  }

  /** `setupLighting`: studio, street and showroom have their own rigs; every other type gets the default rig. */
  function SetupLighting(t: BackgroundType): (l: LightRig)
    ensures l == DefaultLights <==> t != Studio && t != Street && t != Showroom
    ensures l == StudioLights <==> t == Studio
    ensures l == StreetLights <==> t == Street
    ensures l == ShowroomLights <==> t == Showroom
  {
    match t
    case Studio => StudioLights
    case Street => StreetLights
    case Showroom => ShowroomLights
    case _ => DefaultLights
  }

  /**
   * Attaches a newly built background. Every variant except the showroom
   * room also becomes the object `backgroundMesh` refers to.
   */
  function Attach(v: Viewer, b: Backdrop): (r: Viewer)
    ensures r.scene == v.scene + [Piece(v.nextId, b)]
    ensures r.nextId == v.nextId + 1
    ensures b != ShowroomRoom ==> r.backgroundMesh == Some(BackgroundMesh(v.nextId, b, 0.0))
    ensures b == ShowroomRoom ==> r.backgroundMesh == v.backgroundMesh
    ensures r.(scene := v.scene, backgroundMesh := v.backgroundMesh, nextId := v.nextId) == v
  {
    v.(scene := v.scene + [Piece(v.nextId, b)],
       backgroundMesh := if b != ShowroomRoom then Some(BackgroundMesh(v.nextId, b, 0.0)) else v.backgroundMesh,
       nextId := v.nextId + 1)
  }

  /** Detaches the piece with identity `id`; every other piece stays. */
  function Detach(scene: seq<Piece>, id: nat): (r: seq<Piece>)
    ensures forall p :: p in r <==> p in scene && p.id != id
    ensures |r| <= |scene|
  {
    if |scene| == 0 then []
    else if scene[0].id == id then Detach(scene[1..], id)
    else
      assert forall p :: p in scene <==> p == scene[0] || p in scene[1..];
      [scene[0]] + Detach(scene[1..], id)
  }

  /**
   * The viewer once `ngOnInit` and the scene set-up have run: rotation
   * follows `autoRotate`, the background and one light rig for the chosen
   * type are in place, the camera is at its home position, nothing is loaded.
   */
  function Init(inputs: Inputs): (v: Viewer)
    ensures v.modelPath == inputs.modelPath && v.autoScale == inputs.autoScale && v.targetSize == inputs.targetSize
    ensures v.backgroundType == inputs.backgroundType && v.customBackground == inputs.customBackground
    ensures v.rotationEnabled == inputs.autoRotate && !v.isLoaded && v.model.None?
    ensures v.camera == HomeCamera
    ensures v.lights == [SetupLighting(inputs.backgroundType)]
    ensures v.scene == [Piece(0, SetupBackground(inputs.backgroundType, inputs.customBackground))]
    ensures inputs.backgroundType == Showroom ==> v.backgroundMesh.None?
    ensures inputs.backgroundType != Showroom ==>
              v.backgroundMesh == Some(BackgroundMesh(0, SetupBackground(inputs.backgroundType, inputs.customBackground), 0.0))
    ensures v.nextId == |v.scene|
    ensures WellFormed(v)
  {
    var b := SetupBackground(inputs.backgroundType, inputs.customBackground);
    Viewer(inputs.modelPath, inputs.autoScale, inputs.targetSize, inputs.backgroundType,
           inputs.customBackground, None, false, inputs.autoRotate, HomeCamera,
           [Piece(0, b)], if b != ShowroomRoom then Some(BackgroundMesh(0, b, 0.0)) else None,
           [SetupLighting(inputs.backgroundType)], 1)
  }

  /** `createClothingPlaceholder`: a single red mesh, framed by the placeholder camera. */
  function Placeholder(v: Viewer): (r: Viewer)
    ensures r.isLoaded
    ensures r.model == Some(Model([Mesh(Standard(Palette[0]))], Origin, Origin, 1.0))
    ensures r.camera == PlaceholderCamera
    ensures r.(isLoaded := v.isLoaded, model := v.model, camera := v.camera) == v
  {
    v.(isLoaded := true,
       model := Some(Model([Mesh(Standard(PlaceholderColor))], Origin, Origin, 1.0)),
       camera := PlaceholderCamera)
  }

  /**
   * `loadModel` with the loader's completion: no path gives the placeholder
   * at once; a loader error gives the placeholder; a loaded object is
   * centred, scaled, coloured and framed.
   */
  function LoadModel(v: Viewer, outcome: LoaderOutcome): (r: Viewer)
    ensures r.isLoaded && r.model.Some?
    ensures v.modelPath == "" || outcome.LoadError? ==> r == Placeholder(v)
    ensures v.modelPath != "" && outcome.Loaded? ==>
              var pl := PlaceLoadedObject(outcome.box, v.autoScale, v.targetSize);
              && r.model.value.position == Neg(Center(outcome.box))
              && r.model.value.scale == AutoScale(v.autoScale, v.targetSize, MaxComponent(Size(outcome.box)))
              && r.model.value.rotation == Origin
              && r.model.value.nodes == ApplyClothingMaterials(Palette, outcome.nodes)
              && r.camera == FrameCamera(pl.worldBox)
    ensures r.(model := v.model, isLoaded := v.isLoaded, camera := v.camera) == v
  {
    if v.modelPath == "" then Placeholder(v)
    else
      match outcome
      case LoadError => Placeholder(v)
      case Loaded(nodes, box) =>
        var pl := PlaceLoadedObject(box, v.autoScale, v.targetSize);
        v.(model := Some(Model(ApplyClothingMaterials(Palette, nodes), pl.position, Origin, pl.scale)),
           isLoaded := true,
           camera := pl.camera)
  }

  /** `toggleRotation`. */
  function ToggleRotation(v: Viewer): (r: Viewer)
    ensures r.rotationEnabled != v.rotationEnabled
    ensures r.(rotationEnabled := v.rotationEnabled) == v
  {
    v.(rotationEnabled := !v.rotationEnabled)
  }

  /** `changeColor`: steps every standard-material mesh to the next palette colour; no model, no change. */
  function ChangeColor(v: Viewer): (r: Viewer)
    ensures v.model.None? ==> r == v
    ensures v.model.Some? ==> r.model.Some? && r.model.value.nodes == Recolor(Palette, v.model.value.nodes)
    ensures v.model.Some? ==> r.model.value.(nodes := v.model.value.nodes) == v.model.value
    ensures r.(model := v.model) == v
  {
    match v.model
    case None => v
    case Some(m) => v.(model := Some(m.(nodes := Recolor(Palette, m.nodes))))
  }

  /** `resetView`: the model (if any) back to identity transform, the camera home. */
  function ResetView(v: Viewer): (r: Viewer)
    ensures r.camera == HomeCamera
    ensures r.model.Some? <==> v.model.Some?
    ensures r.model.Some? ==> r.model.value == Model(v.model.value.nodes, Origin, Origin, 1.0)
    ensures r.(model := v.model, camera := v.camera) == v
  {
    v.(model := match v.model
                case None => None
                case Some(m) => Some(m.(rotation := Origin, position := Origin, scale := 1.0)),
       camera := HomeCamera)
  }

  /** Takes the current background object out of the scene, if there is one. */
  function DetachBackground(v: Viewer): (r: Viewer)
    ensures v.backgroundMesh.Some? ==> forall p :: p in r.scene <==> p in v.scene && p.id != v.backgroundMesh.value.id
    ensures v.backgroundMesh.None? ==> r == v
    ensures r.(scene := v.scene) == v
  {
    match v.backgroundMesh
    case None => v
    case Some(m) => v.(scene := Detach(v.scene, m.id))
  }

  /**
   * `changeBackground`: removes the current background object, records the
   * new type, builds its background and adds its light rig. Earlier light
   * rigs stay, and a showroom room, which is never the background object,
   * is never removed.
   */
  function ChangeBackground(v: Viewer, t: BackgroundType): (r: Viewer)
    ensures r.backgroundType == t
    ensures r.lights == v.lights + [SetupLighting(t)]
    ensures |r.scene| > 0
    ensures r.scene[|r.scene| - 1] == Piece(v.nextId, SetupBackground(t, v.customBackground))
    ensures forall p :: p in r.scene[..|r.scene| - 1] <==>
              p in v.scene && (v.backgroundMesh.None? || p.id != v.backgroundMesh.value.id)
    ensures SetupBackground(t, v.customBackground) != ShowroomRoom ==>
              r.backgroundMesh == Some(BackgroundMesh(v.nextId, SetupBackground(t, v.customBackground), 0.0))
    ensures SetupBackground(t, v.customBackground) == ShowroomRoom ==> r.backgroundMesh == v.backgroundMesh
    ensures r.nextId == v.nextId + 1
    ensures r.(backgroundType := v.backgroundType, lights := v.lights, scene := v.scene,
               backgroundMesh := v.backgroundMesh, nextId := v.nextId) == v
  {
    var v1 := DetachBackground(v).(backgroundType := t);
    var v2 := Attach(v1, SetupBackground(t, v.customBackground));
    assert v2.scene[..|v2.scene| - 1] == v1.scene;
    v2.(lights := v.lights + [SetupLighting(t)])
  }

  /** `setCustomBackground`: like a background change to `custom`, built from `url` directly and without new lights. */
  function SetCustomBackground(v: Viewer, url: string): (r: Viewer)
    ensures r.backgroundType == Custom && r.customBackground == url
    ensures r.lights == v.lights
    ensures |r.scene| > 0
    ensures r.scene[|r.scene| - 1] == Piece(v.nextId, CustomSphere(url))
    ensures r.backgroundMesh == Some(BackgroundMesh(v.nextId, CustomSphere(url), 0.0))
    ensures forall p :: p in r.scene[..|r.scene| - 1] <==>
              p in v.scene && (v.backgroundMesh.None? || p.id != v.backgroundMesh.value.id)
    ensures r.nextId == v.nextId + 1
    ensures r.(backgroundType := v.backgroundType, customBackground := v.customBackground, scene := v.scene,
               backgroundMesh := v.backgroundMesh, nextId := v.nextId) == v
  {
    var v1 := DetachBackground(v).(backgroundType := Custom, customBackground := url);
    var v2 := Attach(v1, CustomSphere(url));
    assert v2.scene[..|v2.scene| - 1] == v1.scene;
    v2
  }

  /**
   * A background texture failed to load (studio, street or custom): the
   * fallback gradient sphere is built and added, and becomes the background
   * object; the failed one stays in the scene.
   */
  function BackgroundTextureFailed(v: Viewer): (r: Viewer)
    ensures r.scene == v.scene + [Piece(v.nextId, GradientSphere)]
    ensures r.backgroundMesh == Some(BackgroundMesh(v.nextId, GradientSphere, 0.0))
    ensures r.nextId == v.nextId + 1
    ensures r.(scene := v.scene, backgroundMesh := v.backgroundMesh, nextId := v.nextId) == v
  {
    Attach(v, GradientSphere)
  }

  /** Adds `dy` to a rotation about the vertical axis. */
  function SpinY(rot: Vec3, dy: real): Vec3 {
    Vec3(rot.x, rot.y + dy, rot.z)
  }

  /**
   * One animation frame: the model turns only when it is loaded, present
   * and rotation is enabled; the background object turns only for the
   * studio type.
   */
  function AnimateStep(v: Viewer): (r: Viewer)
    ensures v.isLoaded && v.model.Some? && v.rotationEnabled ==>
              r.model == Some(v.model.value.(rotation := SpinY(v.model.value.rotation, ModelSpinPerFrame)))
    ensures !(v.isLoaded && v.model.Some? && v.rotationEnabled) ==> r.model == v.model
    ensures v.backgroundMesh.Some? && v.backgroundType == Studio ==>
              r.backgroundMesh == Some(v.backgroundMesh.value.(rotationY := v.backgroundMesh.value.rotationY + BackgroundSpinPerFrame))
    ensures !(v.backgroundMesh.Some? && v.backgroundType == Studio) ==> r.backgroundMesh == v.backgroundMesh
    ensures r.(model := v.model, backgroundMesh := v.backgroundMesh) == v
  {
    var model :=
      if v.isLoaded && v.model.Some? && v.rotationEnabled
      then Some(v.model.value.(rotation := SpinY(v.model.value.rotation, ModelSpinPerFrame)))
      else v.model;
    var background :=
      if v.backgroundMesh.Some? && v.backgroundType == Studio
      then Some(v.backgroundMesh.value.(rotationY := v.backgroundMesh.value.rotationY + BackgroundSpinPerFrame))
      else v.backgroundMesh;
    v.(model := model, backgroundMesh := background)
  }

  // ---------------------------------------------------------------------
  // Invariant of the scene bookkeeping
  // ---------------------------------------------------------------------

  /** Piece identities are increasing along the scene and below `nextId`; so is the background object's. */
  predicate WellFormed(v: Viewer) {
    && (forall i, j :: 0 <= i < j < |v.scene| ==> v.scene[i].id < v.scene[j].id)
    && (forall i :: 0 <= i < |v.scene| ==> v.scene[i].id < v.nextId)
    && (v.backgroundMesh.Some? ==> v.backgroundMesh.value.id < v.nextId)
  }

  lemma {:induction false} DetachKeepsOrder(scene: seq<Piece>, id: nat, bound: nat)
    requires forall i, j :: 0 <= i < j < |scene| ==> scene[i].id < scene[j].id
    requires forall i :: 0 <= i < |scene| ==> scene[i].id < bound
    ensures forall i, j :: 0 <= i < j < |Detach(scene, id)| ==> Detach(scene, id)[i].id < Detach(scene, id)[j].id
    ensures forall i :: 0 <= i < |Detach(scene, id)| ==> Detach(scene, id)[i].id < bound
  {
    if |scene| > 0 {
      DetachKeepsOrder(scene[1..], id, bound);
      var rest := Detach(scene[1..], id);
      forall p | p in rest ensures scene[0].id < p.id {
        assert p in scene[1..];
      }
    }
  }

  /** Detaching the background object keeps the bookkeeping well formed. */
  lemma DetachBackgroundKeepsWellFormed(v: Viewer)
    requires WellFormed(v)
    ensures WellFormed(DetachBackground(v))
  {
    if v.backgroundMesh.Some? {
      DetachKeepsOrder(v.scene, v.backgroundMesh.value.id, v.nextId);
    }
  }

  /** Attaching a new piece keeps the bookkeeping well formed. */
  lemma AttachKeepsWellFormed(v: Viewer, b: Backdrop)
    requires WellFormed(v)
    ensures WellFormed(Attach(v, b))
  {
  }

  /** A background change keeps the scene bookkeeping well formed. */
  lemma ChangeBackgroundKeepsWellFormed(v: Viewer, t: BackgroundType)
    requires WellFormed(v)
    ensures WellFormed(ChangeBackground(v, t))
  {
    var v1 := DetachBackground(v).(backgroundType := t);
    DetachBackgroundKeepsWellFormed(v);
    AttachKeepsWellFormed(v1, SetupBackground(t, v.customBackground));
    assert ChangeBackground(v, t) == Attach(v1, SetupBackground(t, v.customBackground)).(lights := v.lights + [SetupLighting(t)]);
  }

  /** A custom background keeps the scene bookkeeping well formed. */
  lemma SetCustomBackgroundKeepsWellFormed(v: Viewer, url: string)
    requires WellFormed(v)
    ensures WellFormed(SetCustomBackground(v, url))
  {
    var v1 := DetachBackground(v).(backgroundType := Custom, customBackground := url);
    DetachBackgroundKeepsWellFormed(v);
    AttachKeepsWellFormed(v1, CustomSphere(url));
    assert SetCustomBackground(v, url) == Attach(v1, CustomSphere(url));
  }

  /** The fallback gradient keeps the scene bookkeeping well formed. */
  lemma BackgroundTextureFailedKeepsWellFormed(v: Viewer)
    requires WellFormed(v)
    ensures WellFormed(BackgroundTextureFailed(v))
  {
    AttachKeepsWellFormed(v, GradientSphere);
  }

  /** Every way a load can end leaves the scene bookkeeping alone. */
  lemma LoadModelKeepsWellFormed(v: Viewer, o: LoaderOutcome)
    requires WellFormed(v)
    ensures WellFormed(LoadModel(v, o))
  {
    SameBookkeeping(v, LoadModel(v, o));
  }

  /** A transition that keeps the scene, the counter and the background object's identity keeps `WellFormed`. */
  lemma SameBookkeeping(v: Viewer, r: Viewer)
    requires WellFormed(v)
    requires r.scene == v.scene && r.nextId == v.nextId
    requires r.backgroundMesh.Some? <==> v.backgroundMesh.Some?
    requires r.backgroundMesh.Some? ==> r.backgroundMesh.value.id == v.backgroundMesh.value.id
    ensures WellFormed(r)
  {
  }

  /** The controls and the animation frame leave the scene bookkeeping alone. */
  lemma ControlsKeepWellFormed(v: Viewer)
    requires WellFormed(v)
    ensures WellFormed(AnimateStep(v))
    ensures WellFormed(ResetView(v)) && WellFormed(ChangeColor(v)) && WellFormed(ToggleRotation(v))
  {
    SameBookkeeping(v, AnimateStep(v));
    SameBookkeeping(v, ResetView(v));
    SameBookkeeping(v, ChangeColor(v));
    SameBookkeeping(v, ToggleRotation(v));
  }

  // ---------------------------------------------------------------------
  // Properties relating several transitions
  // ---------------------------------------------------------------------

  /** The placeholder's colour is the first palette colour. */
  lemma PlaceholderIsFirstPaletteColor()
    ensures PlaceholderColor == Palette[0]
  {
  }

  /** Toggling rotation twice changes nothing. */
  lemma ToggleRotationTwice(v: Viewer)
    ensures ToggleRotation(ToggleRotation(v)) == v
  {
  }

  /** Resetting the view a second time changes nothing. */
  lemma ResetViewIdempotent(v: Viewer)
    ensures ResetView(ResetView(v)) == ResetView(v)
  {
  }

  /** `n` successive colour changes. */
  function ChangeColorTimes(v: Viewer, n: nat): Viewer {
    if n == 0 then v else ChangeColor(ChangeColorTimes(v, n - 1))
  }

  lemma {:induction false} ChangeColorTimesNodes(v: Viewer, n: nat)
    ensures ChangeColorTimes(v, n).model.Some? <==> v.model.Some?
    ensures v.model.Some? ==> ChangeColorTimes(v, n) == v.(model := Some(v.model.value.(nodes := RecolorTimes(Palette, n, v.model.value.nodes))))
    ensures v.model.None? ==> ChangeColorTimes(v, n) == v
  {
    if n > 0 {
      ChangeColorTimesNodes(v, n - 1);
    }
  }

  /** Whatever way a load ends, ten colour changes bring the model back to its colours. */
  lemma TenColorChangesAfterLoad(v: Viewer, o: LoaderOutcome)
    ensures ChangeColorTimes(LoadModel(v, o), 10) == LoadModel(v, o)
  {
    var r := LoadModel(v, o);
    ChangeColorTimesNodes(r, 10);
    PaletteFacts();
    if v.modelPath == "" || o.LoadError? {
      FullCycleIdentity(Palette, r.model.value.nodes);
    } else {
      TenRecolorsIdentity(o.nodes);
    }
  }

  /** After switching to the showroom, the next background change, to any type, leaves the showroom room in the scene. */
  lemma ShowroomRoomIsNeverRemoved(v: Viewer, t: BackgroundType)
    requires WellFormed(v)
    ensures Piece(v.nextId, ShowroomRoom) in ChangeBackground(ChangeBackground(v, Showroom), t).scene
  {
    var v1 := ChangeBackground(v, Showroom);
    assert v1.scene[|v1.scene| - 1] == Piece(v.nextId, ShowroomRoom);
    assert v1.backgroundMesh == v.backgroundMesh;
    var v2 := ChangeBackground(v1, t);
    assert Piece(v.nextId, ShowroomRoom) in v2.scene[..|v2.scene| - 1];
  }

  /** A background change from the studio leaves the old studio sphere out of the scene. */
  lemma ChangeBackgroundDropsOldSphere(v: Viewer, t: BackgroundType)
    requires v.backgroundMesh.Some?
    ensures forall p :: p in ChangeBackground(v, t).scene ==> p.id != v.backgroundMesh.value.id || p.id == v.nextId
  {
    var r := ChangeBackground(v, t);
    assert r.scene == r.scene[..|r.scene| - 1] + [r.scene[|r.scene| - 1]];
  }
}
