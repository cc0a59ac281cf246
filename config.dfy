/**
 * The `ADMIN_IDS` setting (src/config.py:7): a comma-separated string of
 * Telegram ids, parsed where it is used.
 */
module Config {
  import opened Wrappers
  import opened Strings

  /**
   * `[int(x) for x in ADMIN_IDS.split(',')]`, with `None` where one `int()`
   * raises `ValueError`.
   */
  function AdminIds(raw: string): (r: Option<seq<int>>)
    ensures r.Some? ==> |r.value| == |Split(raw, ',')|
    ensures r.Some? ==> forall i :: 0 <= i < |r.value| ==> ParseInt(Split(raw, ',')[i]) == Some(r.value[i])
    ensures r.None? ==> exists i :: 0 <= i < |Split(raw, ',')| && ParseInt(Split(raw, ',')[i]).None?
  {
    ParseAll(Split(raw, ','))
  }

  function ParseAll(parts: seq<string>): (r: Option<seq<int>>)
    ensures r.Some? ==> |r.value| == |parts|
    ensures r.Some? ==> forall i :: 0 <= i < |parts| ==> ParseInt(parts[i]) == Some(r.value[i])
    ensures r.None? ==> exists i :: 0 <= i < |parts| && ParseInt(parts[i]).None?
  {
    if parts == [] then Some([])
    else
      match (ParseInt(parts[0]), ParseAll(parts[1..]))
      case (Some(v), Some(vs)) => Some([v] + vs)
      case (None, _) => None
      case (_, None) => None
  }
}
