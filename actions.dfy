/**
  The action bookkeeping of the bot's interaction handler: the statuses an
  action goes through and how they are shown, the participant list typed into
  the registration form, the participant buttons of the victory flow, the
  selection of reward recipients, the reward split, and the actions file
  (`actions.json`) as a store the handlers update.
*/
module Actions {
  import opened Wrappers
  import opened Text
  import Numbers

  const Victory := "Vit\U{F3}ria"
  const Defeat := "Derrota"
  const Cancelled := "Cancelada"
  const InProgress := "Em andamento"

  const Trophy := "\U{1F3C6}"
  const Skull := "\U{1F480}"
  const Cross := "\U{274C}"
  const Hourglass := "\U{23F3}"

  /** `getStatusEmoji`. */
  function StatusEmoji(status: string): (e: string)
    ensures e in {Trophy, Skull, Cross, Hourglass}
  {
    if status == Victory then Trophy
    else if status == Defeat then Skull
    else if status == Cancelled then Cross
    else Hourglass
  }

  /** `getStatusColor`. */
  function StatusColor(status: string): (c: string)
    ensures c in {"#00FF00", "#FF0000", "#808080", "#FFA500"}
  {
    if status == Victory then "#00FF00"
    else if status == Defeat then "#FF0000"
    else if status == Cancelled then "#808080"
    else "#FFA500"
  }

  /**
    Both mappings have the same three named statuses and one default: two
    statuses get the same emoji exactly when they get the same colour, and an
    action in progress shows the default of both.
  */
  lemma StatusMappingsAgree(a: string, b: string)
    ensures StatusEmoji(a) == StatusEmoji(b) <==> StatusColor(a) == StatusColor(b)
    ensures StatusEmoji(a) == Hourglass <==> a != Victory && a != Defeat && a != Cancelled
    ensures StatusColor(a) == "#FFA500" <==> StatusEmoji(a) == Hourglass
    ensures StatusEmoji(InProgress) == Hourglass && StatusColor(InProgress) == "#FFA500"
  {
  }

  const Bullet := "\U{2022} "

  /** Each participant as a bullet line. */
  function Bullets(ps: seq<string>): (lines: seq<string>)
    ensures |lines| == |ps|
    ensures forall i :: 0 <= i < |ps| ==> lines[i] == Bullet + ps[i]
  {
    seq(|ps|, i requires 0 <= i < |ps| => Bullet + ps[i])
  }

  /** `formatParticipants`: the bullet lines joined by line breaks. */
  function FormatParticipants(ps: seq<string>): string {
    Join(Bullets(ps), "\n")
  }

  /**
    The list reads back line by line: splitting the text at line breaks gives
    one bullet line per participant, in order. An empty list gives an empty text.
  */
  lemma FormatParticipantsLines(ps: seq<string>)
    requires forall i :: 0 <= i < |ps| ==> '\n' !in ps[i]
    ensures ps == [] ==> FormatParticipants(ps) == ""
    ensures ps != [] ==> Split(FormatParticipants(ps), '\n') == Bullets(ps)
  {
    if ps != [] {
      var lines := Bullets(ps);
      forall i | 0 <= i < |lines|
        ensures '\n' !in lines[i]
      {
        assert lines[i] == Bullet + ps[i];
      }
      SplitJoin(lines, '\n');
    }
  }

  /** `.map(p => p.trim())`. */
  function TrimAll(ps: seq<string>): (r: seq<string>)
    ensures |r| == |ps| && forall i :: 0 <= i < |ps| ==> r[i] == Trim(ps[i])
  {
    seq(|ps|, i requires 0 <= i < |ps| => Trim(ps[i]))
  }

  /** `.filter(p => p)`: the non-empty strings, in order. */
  function NonEmpty(ps: seq<string>): (r: seq<string>)
    ensures |r| <= |ps|
    ensures forall i :: 0 <= i < |r| ==> r[i] != "" && r[i] in ps
    ensures (forall i :: 0 <= i < |ps| ==> ps[i] != "") ==> r == ps
    ensures forall x :: x != "" ==> multiset(r)[x] == multiset(ps)[x]
  {
    if ps == [] then []
    else
      assert ps == [ps[0]] + ps[1..];
      if ps[0] == "" then NonEmpty(ps[1..])
      else [ps[0]] + NonEmpty(ps[1..])
  }

  /** The filter works piece by piece, so what it keeps stays in order. */
  lemma {:induction false} NonEmptyAppend(a: seq<string>, b: seq<string>)
    ensures NonEmpty(a + b) == NonEmpty(a) + NonEmpty(b)
    decreases |a|
  {
    if a == [] {
      assert a + b == b;
    } else {
      assert (a + b)[0] == a[0];
      assert (a + b)[1..] == a[1..] + b;
      NonEmptyAppend(a[1..], b);
    }
  }

  lemma TrimAllAppend(a: seq<string>, b: seq<string>)
    ensures TrimAll(a + b) == TrimAll(a) + TrimAll(b)
  {
  }

  /** Trimmed comma-free pieces are trimmed and comma-free. */
  lemma CleanPieces(pieces: seq<string>)
    requires forall i :: 0 <= i < |pieces| ==> ',' !in pieces[i]
    ensures forall x :: x in TrimAll(pieces) ==> Trimmed(x) && ',' !in x
  {
    forall x | x in TrimAll(pieces)
      ensures Trimmed(x) && ',' !in x
    {
      var k :| 0 <= k < |pieces| && TrimAll(pieces)[k] == x;
      TrimKeeps(pieces[k], ',');
    }
  }

  /**
    The participant list of the registration form: split at commas, each piece
    trimmed, empty pieces dropped. No participant is empty, has surrounding
    white space or holds a comma.
  */
  function ParseParticipants(input: string): (ps: seq<string>)
    ensures forall i :: 0 <= i < |ps| ==> ps[i] != "" && Trimmed(ps[i]) && ',' !in ps[i]
  {
    var pieces := Split(input, ',');
    CleanPieces(pieces);
    NonEmpty(TrimAll(pieces))
  }

  /**
    Typing a list back in gives the list: a list of non-empty, trimmed,
    comma-free names joined by commas parses to itself; an empty input to no one.
  */
  lemma ParseParticipantsJoin(ps: seq<string>)
    requires forall i :: 0 <= i < |ps| ==> ps[i] != "" && Trimmed(ps[i]) && ',' !in ps[i]
    ensures ParseParticipants(Join(ps, ",")) == ps
  {
    if ps == [] {
      ParseParticipantsBlank();
    } else {
      SplitJoin(ps, ',');
      TrimAllTrimmed(ps);
    }
  }

  /**
    The list is read piece by piece: the participants of two texts joined by a
    comma are those of the first followed by those of the second, so empty
    pieces such as those of "a,,b" or "a,b," drop out and the others stay in order.
  */
  lemma ParseParticipantsAppend(x: string, y: string)
    ensures ParseParticipants(x + "," + y) == ParseParticipants(x) + ParseParticipants(y)
  {
    SplitAppend(x, y, ',');
    var px := Split(x, ',');
    var py := Split(y, ',');
    TrimAllAppend(px, py);
    NonEmptyAppend(TrimAll(px), TrimAll(py));
  }

  /** A piece without a comma gives its trimmed text as the one participant, or no one when it is blank. */
  lemma ParseParticipantsPiece(s: string)
    requires ',' !in s
    ensures ParseParticipants(s) == (if Trim(s) == "" then [] else [Trim(s)])
  {
    assert Split(s, ',') == [s];
    assert TrimAll([s]) == [Trim(s)];
    assert [Trim(s)][1..] == [];
  }

  /** An empty piece between two names drops out: "a,,b" gives `[a, b]`. */
  lemma InnerBlankDropped(a: string, b: string)
    requires a != "" && b != "" && Trimmed(a) && Trimmed(b) && ',' !in a && ',' !in b
    ensures ParseParticipants(a + ",," + b) == [a, b]
  {
    var tail := "," + b;
    calc {
      ParseParticipants(a + ",," + b);
      { assert a + ",," + b == a + "," + tail; }
      ParseParticipants(a + "," + tail);
      { ParseParticipantsAppend(a, tail); }
      ParseParticipants(a) + ParseParticipants(tail);
      { assert tail == "" + "," + b; ParseParticipantsAppend("", b); }
      ParseParticipants(a) + (ParseParticipants("") + ParseParticipants(b));
      { ParseParticipantsBlank(); PieceOfName(a); PieceOfName(b); }
      [a, b];
    }
  }

  /** A trailing empty piece drops out: "a,b," gives `[a, b]`. */
  lemma TrailingBlankDropped(a: string, b: string)
    requires a != "" && b != "" && Trimmed(a) && Trimmed(b) && ',' !in a && ',' !in b
    ensures ParseParticipants(a + "," + b + ",") == [a, b]
  {
    var tail := b + ",";
    calc {
      ParseParticipants(a + "," + b + ",");
      { assert a + "," + b + "," == a + "," + tail; }
      ParseParticipants(a + "," + tail);
      { ParseParticipantsAppend(a, tail); }
      ParseParticipants(a) + ParseParticipants(tail);
      { assert tail == b + "," + ""; ParseParticipantsAppend(b, ""); }
      ParseParticipants(a) + (ParseParticipants(b) + ParseParticipants(""));
      { ParseParticipantsBlank(); PieceOfName(a); PieceOfName(b); }
      [a, b];
    }
  }

  /** A clean name alone is the one participant. */
  lemma PieceOfName(a: string)
    requires a != "" && Trimmed(a) && ',' !in a
    ensures ParseParticipants(a) == [a]
  {
    TrimTrimmed(a);
    ParseParticipantsPiece(a);
  }

  lemma TrimAllTrimmed(ps: seq<string>)
    requires forall i :: 0 <= i < |ps| ==> Trimmed(ps[i])
    ensures TrimAll(ps) == ps
  {
    var t := TrimAll(ps);
    forall i | 0 <= i < |ps|
      ensures t[i] == ps[i]
    {
      TrimTrimmed(ps[i]);
    }
  }

  lemma ParseParticipantsBlank()
    ensures ParseParticipants("") == []
  {
    assert Split("", ',') == [""];
    assert Trim("") == "";
    var t := TrimAll([""]);
    assert t == [""];
    assert NonEmpty(t) == [];
  }

  /** `selectedParticipants.filter(q => q !== p)`. */
  function RemoveAll(sel: seq<string>, p: string): (r: seq<string>)
    ensures p !in r
    ensures forall q :: q != p ==> multiset(r)[q] == multiset(sel)[q]
    ensures p !in sel ==> r == sel
  {
    if sel == [] then []
    else
      assert sel == [sel[0]] + sel[1..];
      if sel[0] == p then RemoveAll(sel[1..], p) else [sel[0]] + RemoveAll(sel[1..], p)
  }

  lemma {:induction false} RemoveAllAppend(a: seq<string>, b: seq<string>, p: string)
    ensures RemoveAll(a + b, p) == RemoveAll(a, p) + RemoveAll(b, p)
  {
    if a != [] {
      assert (a + b)[0] == a[0] && (a + b)[1..] == a[1..] + b;
      RemoveAllAppend(a[1..], b, p);
    } else {
      assert a + b == b;
    }
  }

  /**
    A click on a participant's button: a selected participant is unselected
    (every copy of it removed), any other is appended; nobody else's selection changes.
  */
  function Toggle(sel: seq<string>, p: string): (r: seq<string>)
    ensures p in r <==> p !in sel
    ensures forall q :: q != p ==> multiset(r)[q] == multiset(sel)[q]
    ensures p !in sel ==> r == sel + [p]
  {
    if p in sel then RemoveAll(sel, p) else sel + [p]
  }

  /**
    Clicking twice undoes the first click for a participant that was not
    selected; for one that was, the second click moves it to the end, as a
    single copy.
  */
  lemma ToggleTwice(sel: seq<string>, p: string)
    ensures p !in sel ==> Toggle(Toggle(sel, p), p) == sel
    ensures p in sel ==> Toggle(Toggle(sel, p), p) == RemoveAll(sel, p) + [p]
  {
    if p !in sel {
      RemoveAllAppend(sel, [p], p);
      assert RemoveAll([p], p) == [];
    }
  }

  /**
    The per-participant share: the total divided by the number of selected
    participants, rounded down; `0` when nobody is selected, and `NaN` (`None`)
    when the total did not parse and someone is.
  */
  function Share(total: Option<int>, count: nat): (share: Option<int>)
    ensures count == 0 ==> share == Some(0)
    ensures count > 0 ==> (share.Some? <==> total.Some?)
  {
    if count == 0 then Some(0)
    else if total.None? then None
    else Some(total.value / count)
  }

  /**
    The shares handed out never exceed the total and fall short of it by less
    than one share per participant; a non-negative total gives a non-negative share.
  */
  lemma ShareBounds(total: int, count: nat)
    requires count > 0
    ensures var s := Share(Some(total), count).value;
      s * count <= total < s * count + count && (total >= 0 ==> s >= 0)
  {
    var s := total / count;
    assert total == s * count + total % count;
  }

  /** The id of the button for the participant at `index`. */
  function SelectId(actionId: string, index: nat): string {
    "select_" + actionId + "_" + Numbers.IntToString(index)
  }

  /** `const [_, id, index] = customId.split('_')`: the action id and the parsed index (`None` for `NaN`). */
  function ParseSelectId(customId: string): (Option<string>, Option<int>) {
    var parts := Split(customId, '_');
    (if |parts| > 1 then Some(parts[1]) else None,
     if |parts| > 2 then Numbers.ParseInt(parts[2]) else None)
  }

  /** A button id reads back as the action and the participant index it was made for. */
  lemma SelectIdRoundTrip(actionId: string, index: nat)
    requires '_' !in actionId
    ensures ParseSelectId(SelectId(actionId, index)) == (Some(actionId), Some(index))
  {
    var n := Numbers.IntToString(index);
    Numbers.IntToStringNoUnderscore(index);
    var parts := ["select", actionId, n];
    assert parts[1..][1..] == [n];
    assert Join(parts[1..], "_") == actionId + "_" + n;
    assert Join(parts, "_") == "select" + "_" + (actionId + "_" + n);
    assert Join(parts, "_") == SelectId(actionId, index);
    SplitJoin(parts, '_');
    Numbers.ParseIntToString(index);
  }

  /** A participant button: its id, its label, and whether it is shown as selected. */
  datatype Button = Button(customId: string, caption: string, highlighted: bool)

  function SelectButton(actionId: string, ps: seq<string>, selected: seq<string>, k: nat): Button
    requires k < |ps|
  {
    Button(SelectId(actionId, k), ps[k], ps[k] in selected)
  }

  /** One button per participant, in order. */
  function SelectButtons(actionId: string, ps: seq<string>, selected: seq<string>): (bs: seq<Button>)
    ensures |bs| == |ps|
  {
    seq(|ps|, k requires 0 <= k < |ps| => SelectButton(actionId, ps, selected, k))
  }

  function Flatten(rows: seq<seq<Button>>): seq<Button> {
    if rows == [] then [] else Flatten(rows[..|rows| - 1]) + rows[|rows| - 1]
  }

  function Min(a: int, b: int): int {
    if a < b then a else b
  }

  /** The buttons of one row: those of participants `i` up to `i + 4`, as far as there are any. */
  method ParticipantRow(actionId: string, ps: seq<string>, selected: seq<string>, i: nat) returns (row: seq<Button>)
    requires i < |ps|
    ensures row == SelectButtons(actionId, ps, selected)[i..Min(i + 5, |ps|)]
  {
    var chunk := ps[i..Min(i + 5, |ps|)];
    row := [];
    for j := 0 to |chunk|
      invariant |row| == j
      invariant forall t :: 0 <= t < j ==> row[t] == SelectButton(actionId, ps, selected, i + t)
    {
      var p := chunk[j];
      assert p == ps[i + j];
      row := row + [Button(SelectId(actionId, i + j), p, p in selected)];
    }
    ghost var all := SelectButtons(actionId, ps, selected);
    forall t | 0 <= t < |row|
      ensures row[t] == all[i..Min(i + 5, |ps|)][t]
    {
    }
  }

  /**
    The participant buttons in rows of at most five: row `r` holds the buttons
    of participants `5r` to `5r + 4`, and read row after row the buttons are
    those of every participant exactly once, in order.
  */
  method ParticipantRows(actionId: string, ps: seq<string>, selected: seq<string>) returns (rows: seq<seq<Button>>)
    ensures |rows| == (|ps| + 4) / 5
    ensures forall r :: 0 <= r < |rows| ==> |rows[r]| == Min(5, |ps| - 5 * r) && 1 <= |rows[r]| <= 5
    ensures forall r, j :: 0 <= r < |rows| && 0 <= j < |rows[r]| ==>
      5 * r + j < |ps| && rows[r][j] == SelectButton(actionId, ps, selected, 5 * r + j)
    ensures Flatten(rows) == SelectButtons(actionId, ps, selected)
  {
    ghost var all := SelectButtons(actionId, ps, selected);
    rows := [];
    var i := 0;
    while i < |ps|
      invariant i == 5 * |rows| && i <= |ps| + 4
      invariant forall r :: 0 <= r < |rows| ==> 5 * r < |ps| && rows[r] == all[5 * r..Min(5 * r + 5, |ps|)]
      invariant Flatten(rows) == all[..Min(i, |ps|)]
    {
      var row := ParticipantRow(actionId, ps, selected, i);
      ChunksGrow(all, rows, row);
      FlattenGrow(all, rows, row);
      rows := rows + [row];
      i := i + 5;
    }
    assert all[..|ps|] == all;
    RowsIndex(all, rows);
  }

  /** Appending the next row of five keeps the rows a chunking of a prefix of `all`. */
  lemma ChunksGrow(all: seq<Button>, rows: seq<seq<Button>>, row: seq<Button>)
    requires 5 * |rows| < |all|
    requires forall r :: 0 <= r < |rows| ==> 5 * r < |all| && rows[r] == all[5 * r..Min(5 * r + 5, |all|)]
    requires row == all[5 * |rows|..Min(5 * |rows| + 5, |all|)]
    ensures forall r :: 0 <= r < |rows| + 1 ==>
      5 * r < |all| && (rows + [row])[r] == all[5 * r..Min(5 * r + 5, |all|)]
  {
    forall r | 0 <= r < |rows| + 1
      ensures 5 * r < |all| && (rows + [row])[r] == all[5 * r..Min(5 * r + 5, |all|)]
    {
      if r < |rows| {
        assert (rows + [row])[r] == rows[r];
      }
    }
  }

  /** Flattening the rows with the next row appended gives the longer prefix. */
  lemma FlattenGrow(all: seq<Button>, rows: seq<seq<Button>>, row: seq<Button>)
    requires 5 * |rows| < |all|
    requires Flatten(rows) == all[..5 * |rows|]
    requires row == all[5 * |rows|..Min(5 * |rows| + 5, |all|)]
    ensures Flatten(rows + [row]) == all[..Min(5 * |rows| + 5, |all|)]
  {
    FlattenSnoc(rows, row);
    SplitPrefix(all, 5 * |rows|, Min(5 * |rows| + 5, |all|));
  }

  /** A prefix of `all` is a shorter prefix followed by the slice up to its end. */
  lemma SplitPrefix(all: seq<Button>, i: nat, m: nat)
    requires i <= m <= |all|
    ensures all[..m] == all[..i] + all[i..m]
  {
  }

  /** Flattening rows with one more row appended appends that row. */
  lemma FlattenSnoc(rows: seq<seq<Button>>, row: seq<Button>)
    ensures Flatten(rows + [row]) == Flatten(rows) + row
  {
    assert (rows + [row])[..|rows|] == rows;
  }

  /** The rows of a chunking of `all` into fives hold its elements in place. */
  lemma RowsIndex(all: seq<Button>, rows: seq<seq<Button>>)
    requires forall r :: 0 <= r < |rows| ==> 5 * r < |all| && rows[r] == all[5 * r..Min(5 * r + 5, |all|)]
    ensures forall r, j :: 0 <= r < |rows| && 0 <= j < |rows[r]| ==> 5 * r + j < |all| && rows[r][j] == all[5 * r + j]
  {
  }

  /** What `actionData.reward` records once the reward is entered. */
  datatype Reward = Reward(total: Option<int>, perParticipant: Option<int>, participants: seq<string>)

  /**
    One entry of `actions.json`. `selected` is `None` while
    `selectedParticipants` is missing; a `NaN` reward total or share is stored
    as `null`, here `None`.
  */
  datatype Action = Action(
    id: string, name: string, date: string, participants: seq<string>,
    status: string, creator: string, selected: Option<seq<string>>, reward: Option<Reward>)

  /** `actions.find(a => a.id === id)`, as a position: the first action with that id. */
  function FindAction(actions: seq<Action>, id: string): (k: Option<nat>)
    ensures k.Some? ==> k.value < |actions| && actions[k.value].id == id
    ensures k.Some? ==> forall j :: 0 <= j < k.value ==> actions[j].id != id
    ensures k.None? ==> forall j :: 0 <= j < |actions| ==> actions[j].id != id
  {
    if actions == [] then None
    else if actions[0].id == id then Some(0)
    else
      match FindAction(actions[1..], id)
      case None => None
      case Some(k) => Some(k + 1)
  }

  /** The outcome buttons under a newly registered action. */
  datatype Outcome = CancelClicked | DefeatClicked | VictoryClicked

  /** The contents of `actions.json`; a missing file reads as no actions. */
  class ActionStore {
    var actions: seq<Action>

    constructor()
      ensures actions == []
    {
      actions := [];
    }

    /** `saveAction`: the action goes at the end of the list. */
    method SaveAction(a: Action)
      modifies this
      ensures actions == old(actions) + [a]
    {
      actions := actions + [a];
    }

    /** The registration form: a new action in progress, with the parsed participants, saved. */
    method Register(id: string, name: string, date: string, participantsInput: string, creator: string)
      returns (a: Action)
      modifies this
      ensures a == Action(id, name, date, ParseParticipants(participantsInput), InProgress, creator, None, None)
      ensures actions == old(actions) + [a]
    {
      a := Action(id, name, date, ParseParticipants(participantsInput), InProgress, creator, None, None);
      SaveAction(a);
    }

    /**
      An outcome button: "cancel" and "defeat" set the status; "victory" clears
      the selection and returns the participant buttons, leaving the status for
      the reward form to set. An unknown id changes nothing.
    */
    method Resolve(outcome: Outcome, id: string) returns (found: bool, rows: seq<seq<Button>>)
      modifies this
      ensures found <==> FindAction(old(actions), id).Some?
      ensures !found ==> actions == old(actions) && rows == []
      ensures found ==> var k := FindAction(old(actions), id).value;
        && actions == old(actions)[k := match outcome
                                          case CancelClicked => old(actions)[k].(status := Cancelled)
                                          case DefeatClicked => old(actions)[k].(status := Defeat)
                                          case VictoryClicked => old(actions)[k].(selected := Some([]))]
        && (outcome == VictoryClicked ==> Flatten(rows) == SelectButtons(id, old(actions)[k].participants, []))
        && (outcome != VictoryClicked ==> rows == [])
    {
      var k := FindAction(actions, id);
      rows := [];
      if k.None? {
        return false, [];
      }
      found := true;
      var a := actions[k.value];
      match outcome
      case CancelClicked =>
        actions := actions[k.value := a.(status := Cancelled)];
      case DefeatClicked =>
        actions := actions[k.value := a.(status := Defeat)];
      case VictoryClicked =>
        actions := actions[k.value := a.(selected := Some([]))];
        rows := ParticipantRows(id, a.participants, []);
    }

    /**
      A participant button: toggles that participant in the selection (a
      missing selection counts as empty) and redraws the buttons with the
      selected ones highlighted.
    */
    method ToggleSelection(customId: string) returns (found: bool, rows: seq<seq<Button>>)
      modifies this
      ensures var (id, index) := ParseSelectId(customId);
        found <==> id.Some? && FindAction(old(actions), id.value).Some?
      ensures !found ==> actions == old(actions)
      ensures found ==>
        var (id, index) := ParseSelectId(customId);
        var k := FindAction(old(actions), id.value).value;
        var a := old(actions)[k];
        if index.Some? && 0 <= index.value < |a.participants| then
          var sel := Toggle(a.selected.GetOr([]), a.participants[index.value]);
          actions == old(actions)[k := a.(selected := Some(sel))]
          && Flatten(rows) == SelectButtons(id.value, a.participants, sel)
        else
          actions == old(actions)
    {
      var (id, index) := ParseSelectId(customId);
      rows := [];
      if id.None? {
        return false, [];
      }
      var k := FindAction(actions, id.value);
      if k.None? {
        return false, [];
      }
      found := true;
      var a := actions[k.value];
      if index.Some? && 0 <= index.value < |a.participants| {
        var sel := Toggle(a.selected.GetOr([]), a.participants[index.value]);
        actions := actions[k.value := a.(selected := Some(sel))];
        rows := ParticipantRows(id.value, a.participants, sel);
      }
    }

    /**
      The reward form: the action becomes a victory and records the total as
      typed (parsed like `parseInt`), the share of each selected participant
      and who they are.
    */
    method RecordReward(id: string, rewardText: string) returns (found: bool)
      modifies this
      ensures found <==> FindAction(old(actions), id).Some?
      ensures !found ==> actions == old(actions)
      ensures found ==>
        var k := FindAction(old(actions), id).value;
        var a := old(actions)[k];
        var total := Numbers.ParseInt(rewardText);
        var sel := a.selected.GetOr([]);
        actions == old(actions)[k := a.(status := Victory, reward := Some(Reward(total, Share(total, |sel|), sel)))]
    {
      var k := FindAction(actions, id);
      if k.None? {
        return false;
      }
      found := true;
      var a := actions[k.value];
      var total := Numbers.ParseInt(rewardText);
      var sel := if a.selected.Some? then a.selected.value else [];
      actions := actions[k.value := a.(status := Victory, reward := Some(Reward(total, Share(total, |sel|), sel)))];
    }
  }
}
