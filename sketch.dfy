/** The character-sketching page: the user draws each extracted character in
    turn; pressing Next saves the canvas under the character's name and moves
    on; once every character has a saved drawing the page hands the drawings
    on to the generate page.

    A drawing is an opaque token (the PNG data URL of the canvas). Strokes,
    canvas scaling and image loading are not modelled: the snapshot the
    canvas would give is a parameter, `None` when there is no canvas. */
module Sketch {
  import opened Wrappers
  import opened Scenes

  type Drawing = string

  /** The names every plain object inherits from `Object.prototype`.
      Reading one of them from an object that has no own entry of that name
      gives a function (or, for `__proto__`, an object), which is truthy. */
  const ObjectPrototypeNames: set<string> :=
    {"constructor", "hasOwnProperty", "isPrototypeOf", "propertyIsEnumerable", "toLocaleString", "toString",
     "valueOf", "__proto__", "__defineGetter__", "__defineSetter__", "__lookupGetter__", "__lookupSetter__"}

  /** `savedDrawings[name]` is truthy: the name's own saved drawing is
      non-empty, or it has none and the name is inherited. */
  predicate HasDrawing(saved: map<string, Drawing>, name: string) {
    if name in saved then saved[name] != "" else name in ObjectPrototypeNames
  }

  /** A drawing saved under the name itself, as opposed to an inherited
      member. */
  predicate HasOwnDrawing(saved: map<string, Drawing>, name: string) {
    name in saved && saved[name] != ""
  }

  /** `characters.every(char => savedDrawings[char.name])`. */
  predicate AllDrawn(characters: seq<Character>, saved: map<string, Drawing>) {
    forall i :: 0 <= i < |characters| ==> HasDrawing(saved, characters[i].name)
  }

  /** `data.characters[currentCharacterIndex]`, if there is one. */
  function CurrentCharacter(characters: seq<Character>, index: int): Option<Character> {
    if 0 <= index < |characters| then Some(characters[index]) else None
  }

  /** The saved drawings after the canvas snapshot is stored for the current
      character: one key, the character's name, is written. */
  function SaveAt(characters: seq<Character>, index: int, saved: map<string, Drawing>, snapshot: Option<Drawing>)
    : (r: map<string, Drawing>)
    ensures snapshot.None? || CurrentCharacter(characters, index).None? ==> r == saved
    ensures snapshot.Some? && 0 <= index < |characters| ==>
      r.Keys == saved.Keys + {characters[index].name} && r[characters[index].name] == snapshot.value
    ensures forall name :: name in saved && (CurrentCharacter(characters, index).None? || name != characters[index].name)
                           ==> name in r && r[name] == saved[name]
  {
    if snapshot.Some? && 0 <= index < |characters| then saved[characters[index].name := snapshot.value] else saved
  }

  /** The index after Next: one further unless already at the last. */
  function NextIndex(characters: seq<Character>, index: int): (r: int)
    ensures index < |characters| - 1 ==> r == index + 1
    ensures index >= |characters| - 1 ==> r == index
    ensures 0 <= index < |characters| ==> 0 <= r < |characters|
  {
    if index < |characters| - 1 then index + 1 else index
  }

  /** Characters sharing a name share one entry: saving for one of them
      draws all of them, and the last save wins. */
  lemma SharedNameSharesEntry(characters: seq<Character>, i: int, j: int, saved: map<string, Drawing>, d: Drawing, e: Drawing)
    requires 0 <= i < |characters| && 0 <= j < |characters| && characters[i].name == characters[j].name
    ensures SaveAt(characters, j, SaveAt(characters, i, saved, Some(d)), Some(e))[characters[i].name] == e
    ensures d != "" ==> HasDrawing(SaveAt(characters, i, saved, Some(d)), characters[j].name)
  {
  }

  /** Characters named after inherited members count as drawn before anything
      is saved for them. */
  lemma InheritedNamesCountAsDrawn(characters: seq<Character>, saved: map<string, Drawing>)
    requires forall i :: 0 <= i < |characters| ==> characters[i].name in ObjectPrototypeNames
    requires forall i :: 0 <= i < |characters| ==> characters[i].name !in saved
    ensures AllDrawn(characters, saved)
  {
  }

  datatype Progress = Progress(index: int, saved: map<string, Drawing>)

  /** One press of Next while the canvas holds `snapshot`. */
  function Next(characters: seq<Character>, p: Progress, snapshot: Option<Drawing>): Progress {
    Progress(NextIndex(characters, p.index), SaveAt(characters, p.index, p.saved, snapshot))
  }

  /** Pressing Next once per snapshot, in order. */
  function Walk(characters: seq<Character>, p: Progress, snapshots: seq<Drawing>): Progress
    decreases |snapshots|
  {
    if snapshots == [] then p else Walk(characters, Next(characters, p, Some(snapshots[0])), snapshots[1..])
  }

  lemma {:induction false} WalkDrawsTheRest(characters: seq<Character>, p: Progress, snapshots: seq<Drawing>)
    requires |snapshots| > 0 && 0 <= p.index && p.index + |snapshots| == |characters|
    requires forall k :: 0 <= k < |snapshots| ==> snapshots[k] != ""
    ensures forall i :: p.index <= i < |characters| ==> HasDrawing(Walk(characters, p, snapshots).saved, characters[i].name)
    ensures forall name :: HasDrawing(p.saved, name) ==> HasDrawing(Walk(characters, p, snapshots).saved, name)
    ensures Walk(characters, p, snapshots).index == |characters| - 1
    decreases |snapshots|
  {
    var q := Next(characters, p, Some(snapshots[0]));
    var r := Walk(characters, p, snapshots);
    assert r == Walk(characters, q, snapshots[1..]);
    assert HasDrawing(q.saved, characters[p.index].name);
    if |snapshots| == 1 {
      assert r == q;
    } else {
      WalkDrawsTheRest(characters, q, snapshots[1..]);
    }
  }

  /** Drawing every character in turn, from the first, completes the page
      and stops on the last character. */
  lemma DrawingEveryoneCompletes(characters: seq<Character>, saved: map<string, Drawing>, snapshots: seq<Drawing>)
    requires |characters| > 0 && |snapshots| == |characters|
    requires forall k :: 0 <= k < |snapshots| ==> snapshots[k] != ""
    ensures AllDrawn(characters, Walk(characters, Progress(0, saved), snapshots).saved)
    ensures Walk(characters, Progress(0, saved), snapshots).index == |characters| - 1
  {
    WalkDrawsTheRest(characters, Progress(0, saved), snapshots);
  }

  /** What the canvas shows after the current character changes. */
  datatype CanvasView = Untouched | Blank | Showing(drawing: Drawing)

  predicate Distinct(xs: seq<string>) {
    forall a, b :: 0 <= a < b < |xs| ==> xs[a] != xs[b]
  }

  lemma {:induction false} DistinctCount(xs: seq<string>)
    requires Distinct(xs)
    ensures |set k | 0 <= k < |xs| :: xs[k]| == |xs|
    decreases |xs|
  {
    if xs != [] {
      var init := xs[..|xs| - 1];
      DistinctCount(init);
      var s := set k | 0 <= k < |init| :: init[k];
      assert (set k | 0 <= k < |xs| :: xs[k]) == s + {xs[|xs| - 1]};
      assert xs[|xs| - 1] !in s;
    }
  }

  /** The values of `m` at `keys`, in the order of `keys`. */
  function ValuesAt(keys: seq<string>, m: map<string, Drawing>): (r: seq<Drawing>)
    requires forall k :: 0 <= k < |keys| ==> keys[k] in m
    ensures |r| == |keys| && forall k :: 0 <= k < |r| ==> r[k] == m[keys[k]]
  {
    seq(|keys|, k requires 0 <= k < |keys| => m[keys[k]])
  }

  class SketchPage {
    var data: Option<ExtractedData>
    var index: int
    var saved: map<string, Drawing>
    /** The keys of `saved` in the order they were first written. This is
        the order `Object.values` lists the drawings in, except that it puts
        integer-like keys first. */
    var order: seq<string>

    ghost predicate Valid()
      reads this
    {
      && 0 <= index
      && (data.Some? && |data.value.characters| > 0 ==> index < |data.value.characters|)
      && (data.None? || |data.value.characters| == 0 ==> index == 0)
      && (data.None? ==> saved == map[])
      && (data.Some? ==> saved.Keys <= NameSet(data.value.characters))
      && Distinct(order)
      && (forall name :: name in saved <==> name in order)
    }

    function Characters(): seq<Character>
      reads this
    {
      if data.Some? then data.value.characters else []
    }

    constructor (data: Option<ExtractedData>)
      ensures Valid()
      ensures this.data == data && index == 0 && saved == map[] && order == []
    {
      this.data := data;
      index := 0;
      saved := map[];
      order := [];
    }

    /** Writes `snapshot` under `name`, recording a first write in `order`. */
    method Store(name: string, snapshot: Drawing)
      requires Valid() && data.Some? && name in NameSet(data.value.characters)
      modifies this`saved, this`order
      ensures Valid()
      ensures saved == old(saved)[name := snapshot]
    {
      if name !in saved {
        order := order + [name];
      }
      saved := saved[name := snapshot];
    }

    /** `saveDrawing`: needs data, a canvas and a current character. */
    method SaveDrawing(canvas: Option<Drawing>)
      requires Valid()
      modifies this`saved, this`order
      ensures Valid()
      ensures saved == SaveAt(Characters(), index, old(saved), canvas)
    {
      if canvas.None? || data.None? {
        return;
      }
      var characters := data.value.characters;
      if !(0 <= index < |characters|) {
        return;
      }
      Store(characters[index].name, canvas.value);
    }

    /** `handleNext`: saves when there is a canvas and a current character,
        then moves on unless this is the last character. */
    method HandleNext(canvas: Option<Drawing>)
      requires Valid()
      modifies this`saved, this`order, this`index
      ensures Valid()
      ensures data.None? ==> saved == old(saved) && index == old(index)
      ensures data.Some? ==> Progress(index, saved) == Next(Characters(), Progress(old(index), old(saved)), canvas)
    {
      if data.None? {
        return;
      }
      var characters := data.value.characters;
      if canvas.Some? && 0 <= index < |characters| {
        Store(characters[index].name, canvas.value);
      }
      if index < |characters| - 1 {
        index := index + 1;
      }
    }

    /** On the last character Next does not move. */
    function IsLastCharacter(): (r: bool)
      reads this
      ensures data.None? ==> !r
      ensures data.Some? && 0 <= index < |data.value.characters| ==>
        (r <==> NextIndex(data.value.characters, index) == index)
      ensures data.Some? && 0 <= index ==>
        (r <==> index < |data.value.characters| && NextIndex(data.value.characters, index) == index)
    {
      data.Some? && index == |data.value.characters| - 1
    }

    function AllCharactersDrawn(): (r: bool)
      reads this
      ensures r <==> data.Some? && forall name :: name in NameSet(data.value.characters) ==> HasDrawing(saved, name)
    {
      data.Some? && AllDrawn(data.value.characters, saved)
    }

    /** The effect that runs when the current character changes: the saved
        drawing of the new character if it has one, a blank canvas if the
        lookup is falsy. An inherited member is truthy but is no image: it
        becomes the image's source, never loads, and the canvas keeps what it
        showed. */
    function CanvasOnSwitch(hasCanvas: bool): (v: CanvasView)
      reads this
      ensures v.Showing? <==> hasCanvas && data.Some? && CurrentCharacter(Characters(), index).Some?
                              && HasOwnDrawing(saved, Characters()[index].name)
      ensures v.Showing? ==> v.drawing == saved[Characters()[index].name] && v.drawing != ""
      ensures v.Blank? <==> hasCanvas && data.Some? && CurrentCharacter(Characters(), index).Some?
                            && !HasDrawing(saved, Characters()[index].name)
    {
      if !hasCanvas || data.None? then Untouched
      else match CurrentCharacter(data.value.characters, index)
        case None => Untouched
        case Some(c) =>
          if HasOwnDrawing(saved, c.name) then Showing(saved[c.name])
          else if HasDrawing(saved, c.name) then Untouched
          else Blank
    }

    /** `Object.values(savedDrawings)`: one drawing per saved name. */
    function Images(): (r: seq<Drawing>)
      reads this
      requires Valid()
      ensures |r| == |order| == |saved.Keys|
      ensures forall k :: 0 <= k < |r| ==> order[k] in saved && r[k] == saved[order[k]]
    {
      DistinctCount(order);
      assert (set k | 0 <= k < |order| :: order[k]) == saved.Keys;
      ValuesAt(order, saved)
    }

    /** Once every character counts as drawn, one image is handed on per
        distinct name, except for inherited names that were never saved: they
        count as drawn but have no image. */
    lemma HandOffHasOneImagePerName()
      requires Valid() && AllCharactersDrawn()
      ensures |Images()| == |NameSet(Characters()) - (ObjectPrototypeNames - saved.Keys)|
      ensures NameSet(Characters()) !! ObjectPrototypeNames ==> |Images()| == |NameSet(Characters())|
    {
      assert saved.Keys == NameSet(Characters()) - (ObjectPrototypeNames - saved.Keys);
      if NameSet(Characters()) !! ObjectPrototypeNames {
        assert NameSet(Characters()) - (ObjectPrototypeNames - saved.Keys) == NameSet(Characters());
      }
    }
  }
}
