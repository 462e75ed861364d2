/**
  The command that adds a Kick channel to the tracked streamers: it reads the
  streamers file (a missing file, or one whose `streamers` is not an array,
  counts as an empty list), appends the new entry and writes the file back.
  The streamer watcher loads this file with `require`, which caches its
  contents, so a running watcher keeps walking the list it loaded first and
  sees the new entry only once the process starts again.
*/
module AddKick {
  import opened Wrappers
  import opened Text
  import opened Dedup

  /** The streamers file; `streamers` is `None` when the property is not an array. */
  datatype StreamersDoc = StreamersDoc(streamers: Option<seq<Streamer>>)

  const Prompt := "Por favor, forne\U{E7}a o nome ou URL do streamer."

  function Confirmation(name: string): string {
    "Streamer " + name + " adicionado com sucesso na Kick!"
  }

  /** The list the command appends to: the file's array, or an empty one. */
  function Existing(file: Option<StreamersDoc>): seq<Streamer> {
    if file.Some? && file.value.streamers.Some? then file.value.streamers.value else []
  }

  /** The list after the command, for a non-empty name. */
  function Appended(file: Option<StreamersDoc>, name: string): seq<Streamer> {
    Existing(file) + [Streamer("kick", name)]
  }

  /**
    The new entry goes at the end, as a Kick channel under the typed name,
    every earlier entry stays where it was, and nothing is deduplicated: a
    name already on the list is on it twice afterwards, under the same key.
  */
  lemma AppendedSpec(file: Option<StreamersDoc>, name: string)
    ensures var after := Appended(file, name);
      && |after| == |Existing(file)| + 1
      && after[..|Existing(file)|] == Existing(file)
      && after[|after| - 1] == Streamer("kick", name)
      && StreamKey(after[|after| - 1]) == "kick:" + name
      && (Streamer("kick", name) in Existing(file) ==>
            exists i :: 0 <= i < |after| - 1 && StreamKey(after[i]) == StreamKey(after[|after| - 1]))
  {
    var after := Appended(file, name);
    if Streamer("kick", name) in Existing(file) {
      var i :| 0 <= i < |Existing(file)| && Existing(file)[i] == Streamer("kick", name);
      assert after[i] == Streamer("kick", name);
    }
  }

  /** The typed words joined by spaces are empty exactly when nothing, or a single empty word, was typed. */
  lemma {:induction false} JoinedNameEmpty(args: seq<string>)
    ensures Join(args, " ") == "" <==> args == [] || args == [""]
  {
    if |args| >= 2 {
      assert |Join(args, " ")| >= 1 by {
        assert Join(args, " ") == args[0] + " " + Join(args[1..], " ");
      }
    }
  }

  /** The streamers file on disk; `None` while there is no file. */
  class StreamersFile {
    var file: Option<StreamersDoc>

    constructor(file: Option<StreamersDoc>)
      ensures this.file == file
    {
      this.file := file;
    }

    /**
      `handleAdicionarkick`: an empty name is answered with a prompt and the
      file is left alone; otherwise the Kick channel is appended to the list and
      the file holds exactly that list afterwards.
    */
    method HandleAdicionarkick(args: seq<string>) returns (reply: string)
      modifies this
      ensures var name := Join(args, " ");
        && (name == "" ==> reply == Prompt && file == old(file))
        && (name != "" ==> reply == Confirmation(name)
                           && file == Some(StreamersDoc(Some(Appended(old(file), name)))))
    {
      var name := Join(args, " ");
      if name == "" {
        return Prompt;
      }
      var streamers: seq<Streamer> := [];
      if file.Some? {
        if file.value.streamers.Some? {
          streamers := file.value.streamers.value;
        }
      }
      streamers := streamers + [Streamer("kick", name)];
      file := Some(StreamersDoc(Some(streamers)));
      reply := Confirmation(name);
    }
  }
}
