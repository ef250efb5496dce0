/**
 * The per-agent conversation-history store: one JSON file mapping agent
 * names to their lists of turns, used only when memory is persistent.
 */
module Memory {
  import opened Wrappers

  /** One exchange of a conversation. */
  datatype Turn = Turn(input: string, output: string)

  /** The contents of one history file: agent name to that agent's turns. */
  type Histories = map<string, seq<Turn>>

  /** The files on disk, by path; a path that is not a key has no file. */
  type Disk = map<string, Histories>

  const HistoryFile := "chat_history.json"

  /** Python treats both `None` and `""` as "no path". */
  predicate NoPath(path: Option<string>)
  {
    path.None? || path.value == ""
  }

  /** `get_history_path(persistent)`. */
  function HistoryPath(persistent: bool): (path: Option<string>)
    ensures !NoPath(path) <==> persistent
    ensures persistent ==> path == Some(HistoryFile)
    ensures !persistent ==> path == None
  {
    if persistent then Some(HistoryFile) else None
  }

  /** `load_history(agent_name, path)`, reading `disk`. */
  function LoadHistory(disk: Disk, agent: string, path: Option<string>): (h: seq<Turn>)
    ensures NoPath(path) || path.value !in disk ==> h == []
    ensures h != [] ==> !NoPath(path) && path.value in disk && agent in disk[path.value]
    ensures !NoPath(path) && path.value in disk && agent in disk[path.value] ==> h == disk[path.value][agent]
  {
    if NoPath(path) || path.value !in disk then []
    else if agent in disk[path.value] then disk[path.value][agent]
    else []
  }

  /** The disk after `save_history(agent_name, history, path)`. */
  function Saved(disk: Disk, agent: string, history: seq<Turn>, path: Option<string>): (r: Disk)
    ensures NoPath(path) ==> r == disk
    ensures !NoPath(path) ==> LoadHistory(r, agent, path) == history
    ensures forall b, q :: b != agent || q != path ==> LoadHistory(r, b, q) == LoadHistory(disk, b, q)
    ensures !NoPath(path) && path.value !in disk ==> path.value in r && r[path.value] == map[agent := history]
    ensures forall f :: f in disk && (NoPath(path) || f != path.value) ==> f in r && r[f] == disk[f]
    ensures r.Keys == if NoPath(path) then disk.Keys else disk.Keys + {path.value}
  {
    if NoPath(path) then disk
    else
      var data := if path.value in disk then disk[path.value] else map[];
      disk[path.value := data[agent := history]]
  }

  /** Saving the same history twice leaves the same disk as saving it once. */
  lemma SaveIdempotent(disk: Disk, agent: string, history: seq<Turn>, path: Option<string>)
    ensures Saved(Saved(disk, agent, history, path), agent, history, path) == Saved(disk, agent, history, path)
  {
    if !NoPath(path) {
      var once := Saved(disk, agent, history, path);
      assert once[path.value][agent := history] == once[path.value];
    }
  }

  /** Saves of two different agents' histories do not interfere. */
  lemma SavesCommute(disk: Disk, a: string, ha: seq<Turn>, b: string, hb: seq<Turn>, path: Option<string>)
    requires a != b
    ensures Saved(Saved(disk, a, ha, path), b, hb, path) == Saved(Saved(disk, b, hb, path), a, ha, path)
  {
    if !NoPath(path) {
      var data := if path.value in disk then disk[path.value] else map[];
      assert data[a := ha][b := hb] == data[b := hb][a := ha];
    }
  }

  /** The history files, which `save_history` reads, updates and writes back. */
  class HistoryFiles {
    var disk: Disk

    constructor (initial: Disk)
      ensures disk == initial
    {
      disk := initial;
    }

    /** `save_history(agent, history, path)`. */
    method SaveHistory(agent: string, history: seq<Turn>, path: Option<string>)
      modifies this
      ensures disk == Saved(old(disk), agent, history, path)
      ensures !NoPath(path) ==> LoadHistory(disk, agent, path) == history
    {
      if NoPath(path) {
        return;
      }
      var data: Histories := map[];
      if path.value in disk {
        data := disk[path.value];
      }
      data := data[agent := history];
      disk := disk[path.value := data];
    }
  }
}
