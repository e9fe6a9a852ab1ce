/** The characters and scenes the extraction route produces, as the sketch
    and generate pages receive them. */
module Scenes {

  datatype Character = Character(name: string, description: string)

  datatype Scene = Scene(sceneNumber: int, description: string, characters: seq<string>, location: string)

  datatype ExtractedData = ExtractedData(characters: seq<Character>, scenes: seq<Scene>)

  /** The distinct names among the characters. */
  function NameSet(characters: seq<Character>): set<string> {
    set i | 0 <= i < |characters| :: characters[i].name
  }
}
