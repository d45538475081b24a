/**
 * Asset identifiers and extension filtering (src/dirs.rs, lines 18-40).
 *
 * A path is reduced to what the directory scan asks of it: the raw
 * extension component, which may be absent and which may or may not be
 * valid UTF-8.
 */
module Ids {
  import opened Wrappers

  /** An operating-system string: either valid Unicode text or not. */
  datatype OsStr = Utf8(text: string) | NotUtf8

  /** `OsStr::to_str`: the text, or nothing when the string is not UTF-8. */
  function ToStr(s: OsStr): Option<string>
  {
    match s
    case Utf8(t) => Some(t)
    case NotUtf8 => None
  }

  /**
   * `extension_of`: the extension of a path as text. A path without an
   * extension has the empty extension; a non-UTF-8 extension has none.
   */
  function ExtensionOf(extension: Option<OsStr>): (r: Option<string>)
    ensures extension.None? ==> r == Some("")
    ensures r.None? <==> extension == Some(NotUtf8)
    ensures r.Some? && extension.Some? ==> extension.value == Utf8(r.value)
  {
    match extension
    case Some(ext) => ToStr(ext)
    case None => Some("")
  }

  /**
   * `has_extension`: whether a path's extension is one of the accepted
   * ones. Stated on the raw extension: an absent extension is accepted
   * exactly when "" is, a UTF-8 one exactly when its text is, and a
   * non-UTF-8 one never.
   */
  function HasExtension(extension: Option<OsStr>, accepted: seq<string>): (r: bool)
    ensures extension.None? ==> (r <==> "" in accepted)
    ensures extension == Some(NotUtf8) ==> !r
    ensures extension.Some? && extension.value.Utf8? ==> (r <==> extension.value.text in accepted)
    ensures r <==> ExtensionOf(extension).Some? && ExtensionOf(extension).value in accepted
  {
    match ExtensionOf(extension)
    case Some(fileExt) => fileExt in accepted
    case None => false
  }

  /**
   * The identifier of a child named `name` under the identifier `id`:
   * `id` itself, then a '.' unless `id` is empty, then `name`.
   */
  function Joined(id: string, name: string): (r: string)
    ensures id == [] ==> r == name
    ensures id != [] ==> |r| == |id| + 1 + |name| && r[|id|] == '.'
    ensures |id| <= |r| && r[..|id|] == id
    ensures |name| <= |r| && r[|r| - |name|..] == name
  {
    if id == [] then name else id + "." + name
  }

  /**
   * `id_push`: extends the identifier held in a buffer by one segment,
   * pushing the separator first when the buffer is not empty.
   */
  method IdPush(id: string, name: string) returns (pushed: string)
    ensures pushed == Joined(id, name)
  {
    pushed := id;
    if pushed != [] {
      pushed := pushed + ['.'];
    }
    pushed := pushed + name;
  }

  /** Under one parent, distinct names give distinct identifiers. */
  lemma JoinedInjective(id: string, a: string, b: string)
    requires Joined(id, a) == Joined(id, b)
    ensures a == b
  {
  }
}
