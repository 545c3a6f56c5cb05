/**
 * The JSON scene that the drawing widget produces and the canvas table stores:
 * an element list, the widget's configuration mapping and the embedded files.
 * JSON encoding and decoding are not modelled: a scene travels over the wire
 * unchanged.
 */
module Scene {
  import opened Wrappers

  /** One entry of the widget's element array. A `null` entry is possible in JSON. */
  datatype Element = NullEntry | Shape(id: string, isDeleted: bool)

  /**
   * The `elements` argument of a change notification or the `elements` field
   * of a stored scene: falsy (undefined or null), a truthy value that is not an
   * array, or an array.
   */
  datatype Elements = Absent | NotAnArray | Items(items: seq<Element>)

  /** The widget's configuration mapping, passed through opaquely. */
  type AppState = map<string, string>

  /** An embedded file: a MIME type and its contents as a data URL. */
  datatype FileRecord = FileRecord(mimeType: string, dataUrl: string)

  /** File identifier to embedded file. */
  type FileMap = map<string, FileRecord>

  datatype Scene = Scene(elements: Elements, appState: AppState, files: Option<FileMap>)

  /** The empty scene `{elements: [], appState: {}, files: {}}`. */
  function Scaffold(): (r: Scene)
    ensures r.elements == Items([]) && r.appState == map[] && r.files == Some(map[])
  {
    Scene(Items([]), map[], Some(map[]))
  }

  /** `Array.isArray(elements) ? elements : []` */
  function ElementList(e: Elements): (r: seq<Element>)
    ensures e.Items? ==> r == e.items
    ensures !e.Items? ==> r == []
  {
    if e.Items? then e.items else []
  }

  /** `!e?.isDeleted`: a null entry has no `isDeleted` and so counts as live. */
  predicate IsLive(e: Element)
  {
    !(e.Shape? && e.isDeleted)
  }

  /** `els.filter((e) => !e?.isDeleted)` */
  function NonDeleted(s: seq<Element>): (r: seq<Element>)
    ensures |r| <= |s|
    ensures forall x :: x in r ==> x in s && IsLive(x)
    ensures forall i :: 0 <= i < |s| && IsLive(s[i]) ==> s[i] in r
  {
    if s == [] then []
    else (if IsLive(s[0]) then [s[0]] else []) + NonDeleted(s[1..])
  }

  /** `files || {}` */
  function FilesOrEmpty(files: Option<FileMap>): (r: FileMap)
    ensures files.Some? ==> r == files.value
    ensures files.None? ==> r == map[]
  {
    if files.Some? then files.value else map[]
  }

  /** The classifier of a change: some live element, or at least one file key. */
  predicate HasContent(elements: Elements, files: Option<FileMap>)
  {
    |NonDeleted(ElementList(elements))| > 0 || |FilesOrEmpty(files)| > 0
  }

  predicate SceneHasContent(s: Scene)
  {
    HasContent(s.elements, s.files)
  }

  /**
   * The classifier in its own terms: a change has content exactly when one of
   * its array entries is not flagged deleted or its file map is non-empty; a
   * non-array `elements` contributes nothing.
   */
  lemma HasContentIff(elements: Elements, files: Option<FileMap>)
    ensures HasContent(elements, files) <==>
      (elements.Items? && exists i :: 0 <= i < |elements.items| && IsLive(elements.items[i]))
      || (files.Some? && |files.value| > 0)
  {
    var s := ElementList(elements);
    if exists i :: 0 <= i < |s| && IsLive(s[i]) {
      var i :| 0 <= i < |s| && IsLive(s[i]);
      assert s[i] in NonDeleted(s);
    } else if NonDeleted(s) != [] {
      var x := NonDeleted(s)[0];
      assert x in NonDeleted(s);
    }
  }

  /** The scaffold is an empty scene. */
  lemma ScaffoldIsEmpty()
    ensures !SceneHasContent(Scaffold())
  {
    assert NonDeleted([]) == [];
  }
}
