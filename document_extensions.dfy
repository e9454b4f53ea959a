/** Who may read or modify a document, and the name of its training input file. A user goes by a
    list of ids (their own and their groups'); ids are compared ignoring case, here through
    `fold`, the case folding of the invariant culture, kept abstract. A null id is an absent
    `Option`, equal only to another null. */
module DocumentExtensions {
  import opened Js
  import opened DirectoryIdentities

  datatype InputType = MetadataInput | SimpleInput

  /** The service's document, by the fields these rules read. */
  datatype Document = Document(owner: DirectoryIdentity, acl: seq<DirectoryIdentity>, isPublic: bool,
                               inputType: InputType)

  /** `StringComparer.InvariantCultureIgnoreCase.Equals`. */
  predicate SameId(a: Option<string>, b: Option<string>, fold: string -> string) {
    (a.None? && b.None?) || (a.Some? && b.Some? && fold(a.value) == fold(b.value))
  }

  /** `ids.Contains(id, StringComparer.InvariantCultureIgnoreCase)`. */
  predicate Contains(ids: seq<Option<string>>, id: Option<string>, fold: string -> string) {
    exists i :: 0 <= i < |ids| && SameId(ids[i], id, fold)
  }

  /** The owner or some access-list entry carries one of the user's ids. */
  predicate Member(doc: Document, ids: seq<Option<string>>, fold: string -> string) {
    Contains(ids, doc.owner.id, fold) || exists k :: 0 <= k < |doc.acl| && Contains(ids, doc.acl[k].id, fold)
  }

  /** `UserCanRead`: false for a null document; otherwise members may read, and anyone may read a
      public document. */
  function UserCanRead(doc: Option<Document>, ids: seq<Option<string>>, fold: string -> string): (r: bool)
    ensures doc.None? ==> !r
    ensures doc.Some? && doc.value.isPublic ==> r
    ensures doc.Some? && !doc.value.isPublic ==> (r <==> Member(doc.value, ids, fold))
  {
    doc.Some? && (Contains(ids, doc.value.owner.id, fold) ||
                  (exists k :: 0 <= k < |doc.value.acl| && Contains(ids, doc.value.acl[k].id, fold)) ||
                  doc.value.isPublic)
  }

  /** `UserCanModify`: false for a null document; otherwise exactly the members, public or not. */
  function UserCanModify(doc: Option<Document>, ids: seq<Option<string>>, fold: string -> string): (r: bool)
    ensures doc.None? ==> !r
    ensures doc.Some? ==> (r <==> Member(doc.value, ids, fold))
  {
    doc.Some? && (Contains(ids, doc.value.owner.id, fold) ||
                  exists k :: 0 <= k < |doc.value.acl| && Contains(ids, doc.value.acl[k].id, fold))
  }

  /** Whoever may modify a document may read it. */
  lemma ModifyImpliesRead(doc: Option<Document>, ids: seq<Option<string>>, fold: string -> string)
    ensures UserCanModify(doc, ids, fold) ==> UserCanRead(doc, ids, fold)
  {
  }

  /** Making a document public opens reading to everyone and changes nobody's right to modify. */
  lemma PublicGrantsOnlyRead(doc: Document, ids: seq<Option<string>>, fold: string -> string)
    ensures UserCanRead(Some(doc.(isPublic := true)), ids, fold)
    ensures UserCanModify(Some(doc.(isPublic := true)), ids, fold) == UserCanModify(Some(doc), ids, fold)
  {
    assert Member(doc.(isPublic := true), ids, fold) == Member(doc, ids, fold);
  }

  /** An id of the user that matches the owner, or an entry of the access list, ignoring case,
      grants both reading and modifying. */
  lemma MatchGrantsBoth(doc: Document, ids: seq<Option<string>>, fold: string -> string, i: nat, k: nat)
    requires i < |ids| && ids[i].Some?
    requires (doc.owner.id.Some? && fold(ids[i].value) == fold(doc.owner.id.value)) ||
             (k < |doc.acl| && doc.acl[k].id.Some? && fold(ids[i].value) == fold(doc.acl[k].id.value))
    ensures UserCanRead(Some(doc), ids, fold) && UserCanModify(Some(doc), ids, fold)
  {
    assert SameId(ids[i], doc.owner.id, fold) || (k < |doc.acl| && SameId(ids[i], doc.acl[k].id, fold));
    if !SameId(ids[i], doc.owner.id, fold) {
      assert Contains(ids, doc.acl[k].id, fold);
    }
  }

  /** Without any id of the user's, a private document is closed to them. */
  lemma NoIdsNoAccess(doc: Document, fold: string -> string)
    requires !doc.isPublic
    ensures !UserCanRead(Some(doc), [], fold) && !UserCanModify(Some(doc), [], fold)
  {
  }

  /** `BlobFileName(fileName = "input")`: null for a null document; otherwise the file name with
      ".txt" for simple input and ".csv" for metadata input. */
  function BlobFileName(doc: Option<Document>, fileName: string := "input"): (r: Option<string>)
    ensures r.None? <==> doc.None?
    ensures r.Some? ==> |r.value| == |fileName| + 4 && r.value[..|fileName|] == fileName
    ensures r.Some? ==> (r.value[|fileName|..] == ".txt" <==> doc.value.inputType == SimpleInput)
    ensures r.Some? ==> (r.value[|fileName|..] == ".csv" <==> doc.value.inputType == MetadataInput)
  {
    match doc
    case None => None
    case Some(d) => Some(fileName + if d.inputType == SimpleInput then ".txt" else ".csv")
  }

  /** With the default name the file is "input.txt" or "input.csv". */
  lemma DefaultBlobFileName(doc: Document)
    ensures BlobFileName(Some(doc)) == Some(if doc.inputType == SimpleInput then "input.txt" else "input.csv")
  {
    assert "input" + ".txt" == "input.txt";
    assert "input" + ".csv" == "input.csv";
  }
}
