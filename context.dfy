/**
 * The render context of an HTML file: the file's own metadata object with
 * `filename`, `published`, `updated`, `stats` and `global` written into it.
 */
module RenderContext {
  import opened JsValues

  /** The file's stat record: creation and modification times and its other fields. */
  datatype Stat = Stat(birthtime: Value, mtime: Value, others: map<string, Value>)

  /** The stat record as the object stored under `stats`. */
  function StatValue(stat: Stat): Value {
    Obj(stat.others["birthtime" := stat.birthtime]["mtime" := stat.mtime])
  }

  /** The keys the plugin writes into the metadata. */
  const ContextKeys: set<string> := {"filename", "published", "updated", "stats", "global"}

  /** `meta[key]` when it is truthy, and `fallback` otherwise. */
  function TruthyOr(meta: map<string, Value>, key: string, fallback: Value): Value {
    if Truthy(Get(Obj(meta), key)) then meta[key] else fallback
  }

  /**
   * The context built for a file with metadata `meta`, path `path` and stat
   * record `stat`, in a run whose global variables are `variables`.
   * Timestamps the metadata supplies (truthy) take precedence over the stat
   * record; every other metadata entry is kept as it was.
   */
  function ContextOf(meta: map<string, Value>, path: string, stat: Stat, variables: Value): (c: map<string, Value>)
    ensures c.Keys == meta.Keys + ContextKeys
    ensures c["filename"] == Str(path)
    ensures c["published"] == TruthyOr(meta, "published", stat.birthtime)
    ensures c["updated"] == TruthyOr(meta, "updated", stat.mtime)
    ensures c["stats"] == StatValue(stat)
    ensures c["global"] == variables
    ensures forall k :: k in meta && k !in ContextKeys ==> c[k] == meta[k]
  {
    var named := meta["filename" := Str(path)];
    var published := if Truthy(Get(Obj(named), "published")) then named else named["published" := stat.birthtime];
    var updated := if Truthy(Get(Obj(published), "updated")) then published else published["updated" := stat.mtime];
    updated["stats" := StatValue(stat)]["global" := variables]
  }

  /**
   * Building the context again on metadata that already is a context (the
   * same file object transformed twice) changes nothing: the timestamps of
   * the first pass stay.
   */
  lemma ContextIdempotent(meta: map<string, Value>, path: string, stat: Stat, variables: Value)
    ensures ContextOf(ContextOf(meta, path, stat, variables), path, stat, variables)
            == ContextOf(meta, path, stat, variables)
  {
  }

  /**
   * A second pass with newer stat data keeps a truthy first-pass timestamp:
   * the first pass wrote it into the metadata, which now supplies it.
   */
  lemma RebuildKeepsTimestamps(meta: map<string, Value>, path: string, stat: Stat, stat': Stat, variables: Value)
    requires Truthy(stat.birthtime) && Truthy(stat.mtime)
    ensures ContextOf(ContextOf(meta, path, stat, variables), path, stat', variables)["published"]
            == ContextOf(meta, path, stat, variables)["published"]
    ensures ContextOf(ContextOf(meta, path, stat, variables), path, stat', variables)["updated"]
            == ContextOf(meta, path, stat, variables)["updated"]
  {
  }
}
