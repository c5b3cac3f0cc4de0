/** The startup-program list of the optimization page (App.tsx): an entry
    per program, toggled by id once the main process confirms. */
module Startup {
  import opened Ipc

  /** `StartupProgram` as the renderer receives it. */
  datatype StartupProgram = StartupProgram(
    id: string,
    name: string,
    enabled: bool,
    impact: string,
    publisher: Option<string>,
    location: Option<string>)

  /** The entry with `enabled` flipped and every other field kept (`{ ...p, enabled: !p.enabled }`). */
  function Flipped(p: StartupProgram): StartupProgram {
    p.(enabled := !p.enabled)
  }

  /** `prevPrograms.map(p => p.id === id ? { ...p, enabled: !p.enabled } : p)`:
      every entry whose id matches is flipped, every other entry is kept, and
      the length and order do not change. */
  function ToggleById(ps: seq<StartupProgram>, id: string): (r: seq<StartupProgram>)
    ensures |r| == |ps|
    ensures forall i :: 0 <= i < |ps| ==> r[i] == if ps[i].id == id then Flipped(ps[i]) else ps[i]
  {
    if ps == [] then []
    else [if ps[0].id == id then Flipped(ps[0]) else ps[0]] + ToggleById(ps[1..], id)
  }

  /** Ids are unique, as the main process's list is meant to be. */
  predicate UniqueIds(ps: seq<StartupProgram>) {
    forall i, j :: 0 <= i < j < |ps| ==> ps[i].id != ps[j].id
  }

  /** With unique ids exactly the entry at `k` changes, and it changes only its `enabled` flag. */
  lemma ToggleByIdFlipsExactlyOne(ps: seq<StartupProgram>, k: nat)
    requires UniqueIds(ps) && k < |ps|
    ensures var r := ToggleById(ps, ps[k].id);
      && |r| == |ps|
      && r[k].enabled == !ps[k].enabled
      && r[k] == ps[k].(enabled := r[k].enabled)
      && forall i :: 0 <= i < |ps| && i != k ==> r[i] == ps[i]
  {
  }

  /** An id that no entry has leaves the list as it was. */
  lemma ToggleByIdUnknownId(ps: seq<StartupProgram>, id: string)
    requires forall i :: 0 <= i < |ps| ==> ps[i].id != id
    ensures ToggleById(ps, id) == ps
  {
  }

  /** Toggling the same id twice restores the list. */
  lemma ToggleByIdTwice(ps: seq<StartupProgram>, id: string)
    ensures ToggleById(ToggleById(ps, id), id) == ps
  {
  }

  /** The location line: more than 50 characters are cut to the first 47 and
      '...', so the result never exceeds 50. */
  function DisplayLocation(location: string): (shown: string)
    ensures |shown| <= 50
    ensures |location| <= 50 ==> shown == location
    ensures |location| > 50 ==> |shown| == 50 && shown[..47] == location[..47] && shown[47..] == "..."
  {
    if |location| > 50 then location[..47] + "..." else location
  }
}
