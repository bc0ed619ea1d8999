/** The viewer page: one actor per label model of the first time point, coloured from the
    ITK-SNAP label colour table, and, on every change of time point, actor `i` rebound to
    model `i` of the new time point. VTK actors, mappers and render windows are records
    here: an actor is its label, its mapper's input and its colour, and a render is
    counted. */
module Viewer {
  import opened Wrappers
  import opened LabelModelGenerator

  /** `getITKSNAPLabelColorTable()`: label -> `[r, g, b, a]`. */
  const ColorTable: map<int, seq<int>> := map[
    0 := [0, 0, 0, 0],
    1 := [255, 0, 0, 1],
    2 := [0, 255, 0, 1],
    3 := [0, 0, 255, 1],
    4 := [255, 255, 0, 1],
    5 := [0, 255, 255, 1],
    6 := [255, 0, 255, 1],
    7 := [255, 255, 255, 1],
    8 := [128, 0, 0, 1],
    9 := [0, 128, 0, 1],
    10 := [0, 0, 128, 1],
    11 := [128, 128, 0, 1],
    12 := [128, 0, 128, 1],
    13 := [0, 128, 128, 1],
    14 := [128, 128, 128, 1],
    15 := [192, 192, 192, 1]
  ]

  /** The table has the keys 0 to 15; label 0 is transparent black and every other entry
      is opaque with channels in 0..255. */
  lemma ColorTableShape()
    ensures forall l :: l in ColorTable <==> 0 <= l <= 15
    ensures ColorTable[0] == [0, 0, 0, 0]
    ensures forall l :: 1 <= l <= 15 ==> |ColorTable[l]| == 4 && ColorTable[l][3] == 1
    ensures forall l :: l in ColorTable ==> |ColorTable[l]| == 4 && forall c :: 0 <= c < 4 ==> 0 <= ColorTable[l][c] <= 255
  {
    ColorTableKeys();
    forall l | 0 <= l <= 15
      ensures |ColorTable[l]| == 4 && (l > 0 ==> ColorTable[l][3] == 1)
      ensures forall c :: 0 <= c < 4 ==> 0 <= ColorTable[l][c] <= 255
    {
      ChannelsInRange(ColorTable[l]);
    }
  }

  lemma ColorTableKeys()
    ensures forall l :: l in ColorTable <==> 0 <= l <= 15
  {
  }

  /** A four-entry colour whose channels are bytes. */
  lemma ChannelsInRange(rgba: seq<int>)
    requires rgba in ColorTable.Values
    ensures |rgba| == 4 && forall c :: 0 <= c < 4 ==> 0 <= rgba[c] <= 255
  {
  }

  /** An RGB colour with channels in [0, 1], as `setColor` takes it. */
  datatype Color = Color(r: real, g: real, b: real)

  predicate UnitChannel(x: real) {
    0.0 <= x <= 1.0
  }

  /** The colour of an actor for `label`: the table's RGB divided by 255 when the label is
      in the table, light grey otherwise. */
  function LabelColor(labelValue: int): (c: Color)
    ensures UnitChannel(c.r) && UnitChannel(c.g) && UnitChannel(c.b)
    ensures labelValue in ColorTable ==>
      c == Color(ColorTable[labelValue][0] as real / 255.0, ColorTable[labelValue][1] as real / 255.0,
                 ColorTable[labelValue][2] as real / 255.0)
    ensures labelValue !in ColorTable <==> labelValue < 0 || labelValue > 15
    ensures (labelValue < 0 || labelValue > 15) ==> c == Color(0.9, 0.9, 0.9)
  {
    ColorTableShape();
    if labelValue in ColorTable then
      var rgba := ColorTable[labelValue];
      Color(rgba[0] as real / 255.0, rgba[1] as real / 255.0, rgba[2] as real / 255.0)
    else
      Color(0.9, 0.9, 0.9)
  }

  /** An entry of `actorList`: the label, and the actor's mapper input and colour. */
  datatype Actor<M> = Actor(labelValue: int, input: Option<M>, color: Color)

  /** The actor the setup loop makes for one label model. */
  function ActorFor<M>(lm: LabelModel<M>): Actor<M> {
    Actor(lm.labelValue, lm.model, LabelColor(lm.labelValue))
  }

  /** The actors the setup loop pushes, one per label model, in order. */
  function BuildActors<M>(ms: seq<LabelModel<M>>): (r: seq<Actor<M>>)
    ensures |r| == |ms|
    ensures forall i :: 0 <= i < |ms| ==>
      r[i].labelValue == ms[i].labelValue && r[i].input == ms[i].model
      && r[i].color == LabelColor(ms[i].labelValue)
  {
    if ms == [] then [] else BuildActors(ms[..|ms| - 1]) + [ActorFor(ms[|ms| - 1])]
  }

  /** The `updateTPData` loop on `actors`: actor `i` gets model `i` of `ms` as input for
      every `i` both lists have; labels, colours and the list length stay. */
  function Rebind<M>(actors: seq<Actor<M>>, ms: seq<LabelModel<M>>): (r: seq<Actor<M>>)
    ensures |r| == |actors|
    ensures forall i :: 0 <= i < |actors| ==>
      r[i].labelValue == actors[i].labelValue && r[i].color == actors[i].color
    ensures forall i :: 0 <= i < |actors| && i < |ms| ==> r[i].input == ms[i].model
    ensures forall i :: |ms| <= i < |actors| ==> r[i] == actors[i]
  {
    if actors == [] || ms == [] then actors
    else [actors[0].(input := ms[0].model)] + Rebind(actors[1..], ms[1..])
  }

  /** Rebinding to the same time point a second time changes nothing. */
  lemma RebindIdempotent<M>(actors: seq<Actor<M>>, ms: seq<LabelModel<M>>)
    ensures Rebind(Rebind(actors, ms), ms) == Rebind(actors, ms)
  {
    var once := Rebind(actors, ms);
    var twice := Rebind(once, ms);
    assert forall i :: 0 <= i < |once| ==> twice[i] == once[i];
  }

  /** When two time points have the same labels in the same order, rebinding the actors
      of one to the other gives exactly the actors the other would have been set up with. */
  lemma RebindSameLabels<M>(ms1: seq<LabelModel<M>>, ms2: seq<LabelModel<M>>)
    requires |ms1| == |ms2|
    requires forall i :: 0 <= i < |ms1| ==> ms1[i].labelValue == ms2[i].labelValue
    ensures Rebind(BuildActors(ms1), ms2) == BuildActors(ms2)
  {
    var r := Rebind(BuildActors(ms1), ms2);
    var b := BuildActors(ms2);
    assert forall i :: 0 <= i < |r| ==> r[i] == b[i];
  }

  datatype ViewerError = TypeError  // a property read on `undefined`

  /** The refs and state of `ViewerPage`. */
  class ViewerPage<M> {
    /** `props.models`: per time point, the label models of that time point. */
    var models: seq<seq<LabelModel<M>>>
    var activeTPRef: int
    var activeTP: int
    /** `actorListRef.current` (`null` until setup). */
    var actorList: Option<seq<Actor<M>>>
    /** `vtkRwRef.current !== null`. */
    var renderWindowExists: bool
    /** Calls of `rw.render()`. */
    var renders: nat

    ghost predicate Valid()
      reads this
    {
      renderWindowExists ==> actorList.Some?
    }

    constructor (models: seq<seq<LabelModel<M>>>)
      ensures Valid()
      ensures this.models == models && activeTPRef == 1 && activeTP == 1
      ensures actorList == None && !renderWindowExists && renders == 0
    {
      this.models := models;
      activeTPRef := 1;
      activeTP := 1;
      actorList := None;
      renderWindowExists := false;
      renders := 0;
    }

    /** `handleActiveTPChange`: the ref and the state both take the new time point. */
    method HandleActiveTPChange(newTP: int)
      modifies this
      ensures activeTPRef == newTP && activeTP == newTP
      ensures models == old(models) && actorList == old(actorList)
      ensures renderWindowExists == old(renderWindowExists) && renders == old(renders)
    {
      activeTPRef := newTP;
      activeTP := newTP;
    }

    /** The setup effect: nothing when a render window exists. Otherwise one actor per
        label model of the active time point, in order, then one render. Reading the
        models of a time point that does not exist is a `TypeError`, before any ref is set. */
    method SetupRenderWindow() returns (r: Outcome<ViewerError>)
      requires Valid()
      modifies this
      ensures Valid()
      ensures models == old(models) && activeTPRef == old(activeTPRef) && activeTP == old(activeTP)
      ensures old(renderWindowExists) ==> r.Pass? && unchanged(this)
      ensures !old(renderWindowExists) && !(0 <= activeTPRef - 1 < |models|) ==>
        r == Fail(TypeError) && unchanged(this)
      ensures !old(renderWindowExists) && 0 <= activeTPRef - 1 < |models| ==>
        && r.Pass? && renderWindowExists && renders == old(renders) + 1
        && actorList == Some(BuildActors(models[activeTPRef - 1]))
    {
      if renderWindowExists {
        return Pass;
      }
      if !(0 <= activeTPRef - 1 < |models|) {
        return Fail(TypeError);
      }
      var activeTPModel := models[activeTPRef - 1];
      var actors: seq<Actor<M>> := [];
      for i := 0 to |activeTPModel|
        invariant actors == BuildActors(activeTPModel[..i])
      {
        var labelValue := activeTPModel[i].labelValue;
        var labelModel := activeTPModel[i].model;
        var color := LabelColor(labelValue);
        assert activeTPModel[..i + 1][..i] == activeTPModel[..i];
        actors := actors + [Actor(labelValue, labelModel, color)];
      }
      assert activeTPModel[..|activeTPModel|] == activeTPModel;
      actorList := Some(actors);
      renders := renders + 1;
      renderWindowExists := true;
      r := Pass;
    }

    /** `updateTPData`: actor `i` is rebound to model `i` of the active time point, then one
        render. A missing time point is a `TypeError` with nothing changed; a time point
        with more label models than there are actors rebinds every actor and then fails
        with a `TypeError` before rendering. */
    method UpdateTPData() returns (r: Outcome<ViewerError>)
      requires Valid() && renderWindowExists
      modifies this
      ensures Valid()
      ensures models == old(models) && activeTPRef == old(activeTPRef) && activeTP == old(activeTP)
      ensures renderWindowExists
      ensures !(0 <= activeTPRef - 1 < |models|) ==> r == Fail(TypeError) && unchanged(this)
      ensures 0 <= activeTPRef - 1 < |models| ==>
        actorList == Some(Rebind(old(actorList).value, models[activeTPRef - 1]))
      ensures 0 <= activeTPRef - 1 < |models| ==>
        (r.Pass? <==> |models[activeTPRef - 1]| <= |old(actorList).value|)
      ensures r.Pass? ==> renders == old(renders) + 1
      ensures r.Fail? ==> r.error == TypeError && renders == old(renders)
    {
      if !(0 <= activeTPRef - 1 < |models|) {
        return Fail(TypeError);
      }
      var activeTPModel := models[activeTPRef - 1];
      var actors := actorList.value;
      ghost var original := actors;
      for i := 0 to |activeTPModel|
        invariant |actors| == |original|
        invariant i <= |original| ==> actors == Rebind(original, activeTPModel[..i])
        invariant i > |original| ==> false
      {
        if i >= |actors| {
          // `actorList[i]` is `undefined`: the rebinding so far stays.
          assert actors == Rebind(original, activeTPModel);
          actorList := Some(actors);
          return Fail(TypeError);
        }
        actors := actors[i := actors[i].(input := activeTPModel[i].model)];
        assert actors == Rebind(original, activeTPModel[..i + 1]);
      }
      assert activeTPModel[..|activeTPModel|] == activeTPModel;
      actorList := Some(actors);
      renders := renders + 1;
      r := Pass;
    }

    /** The effect on `activeTP`: `updateTPData` once a render window exists. */
    method ActiveTPEffect() returns (r: Outcome<ViewerError>)
      requires Valid()
      modifies this
      ensures Valid()
      ensures models == old(models) && activeTPRef == old(activeTPRef) && activeTP == old(activeTP)
      ensures !old(renderWindowExists) ==> r.Pass? && unchanged(this)
      ensures old(renderWindowExists) ==> renderWindowExists
      ensures old(renderWindowExists) && !(0 <= activeTPRef - 1 < |models|) ==>
        r == Fail(TypeError) && unchanged(this)
      ensures old(renderWindowExists) && 0 <= activeTPRef - 1 < |models| ==>
        && actorList == Some(Rebind(old(actorList).value, models[activeTPRef - 1]))
        && (r.Pass? <==> |models[activeTPRef - 1]| <= |old(actorList).value|)
      ensures old(renderWindowExists) && r.Pass? ==> renders == old(renders) + 1
      ensures r.Fail? ==> r.error == TypeError && renders == old(renders)
    {
      if !renderWindowExists {
        return Pass;
      }
      r := UpdateTPData();
    }
  }
}
