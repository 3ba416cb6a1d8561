/**
 * `list_directory` (app.py:69-88): ask the contents API for a directory and
 * split its entries into folder names and file names, dropping dot-names and
 * keeping the upstream order.
 */
module Listing {
  import opened Strings
  import opened Urls
  import opened Http

  /** One element of the contents API's JSON array, reduced to the two fields the filters read. */
  datatype Entry = Entry(kind: string, name: string)

  /** The contents API's answer: its HTTP status and the entries of its JSON array. */
  datatype ContentsReply = ContentsReply(status: int, entries: seq<Entry>)

  const DirKind: string := "dir"
  const FileKind: string := "file"
  const ApiOrigin: string := "https://api.github.com/repos/"
  const ContentsMiddle: string := "/contents/"

  /** The contents API URL of a directory of a repository. */
  function ContentsUrl(owner: string, repo: string, subpath: string): string {
    RepoUrl(ApiOrigin, owner, repo, ContentsMiddle, subpath)
  }

  /** Dot-names (hidden files and folders) are never listed. */
  predicate IsDotName(name: string) {
    StartsWith(name, ".")
  }

  /** The names of the entries whose type is `kind`, in upstream order: what the jq filters select. */
  function SelectNames(entries: seq<Entry>, kind: string): (names: seq<string>)
    ensures |names| <= |entries|
    ensures forall n :: n in names <==> Entry(kind, n) in entries
  {
    if entries == [] then []
    else
      assert entries == [entries[0]] + entries[1..];
      (if entries[0].kind == kind then [entries[0].name] else []) + SelectNames(entries[1..], kind)
  }

  /** The names that do not start with '.', in their original order. */
  function DropDotNames(names: seq<string>): (kept: seq<string>)
    ensures |kept| <= |names|
    ensures forall n :: n in kept <==> n in names && !IsDotName(n)
  {
    if names == [] then []
    else
      assert names == [names[0]] + names[1..];
      (if IsDotName(names[0]) then [] else [names[0]]) + DropDotNames(names[1..])
  }

  /** The `folders` of the listing: names of `dir` entries that do not start with '.'. */
  function Folders(entries: seq<Entry>): (folders: seq<string>)
    ensures forall n :: n in folders <==> Entry(DirKind, n) in entries && !IsDotName(n)
  {
    DropDotNames(SelectNames(entries, DirKind))
  }

  /** The `files` of the listing: names of `file` entries that do not start with '.'. */
  function Files(entries: seq<Entry>): (files: seq<string>)
    ensures forall n :: n in files <==> Entry(FileKind, n) in entries && !IsDotName(n)
  {
    DropDotNames(SelectNames(entries, FileKind))
  }

  /**
   * The listing page of `subpath`, or 404 whenever the contents API answers
   * anything but 200. `api` gives the upstream's answer to each URL.
   */
  function ListDirectory(owner: string, repo: string, subpath: string, api: string -> ContentsReply): (r: Response)
    ensures r == Abort(StatusNotFound) <==> api(ContentsUrl(owner, repo, subpath)).status != StatusOk
    ensures r.Abort? || r.Page?
    ensures var reply := api(ContentsUrl(owner, repo, subpath));
      reply.status == StatusOk ==>
        r == Page(Tree(owner, repo, subpath, Folders(reply.entries), Files(reply.entries)))
    ensures r.Page? ==>
      && r.tree.owner == owner && r.tree.repo == repo && r.tree.subpath == subpath
      && (forall n :: n in r.tree.folders <==> Entry(DirKind, n) in api(ContentsUrl(owner, repo, subpath)).entries && !IsDotName(n))
      && (forall n :: n in r.tree.files <==> Entry(FileKind, n) in api(ContentsUrl(owner, repo, subpath)).entries && !IsDotName(n))
  {
    var reply := api(ContentsUrl(owner, repo, subpath));
    if reply.status != StatusOk then Abort(StatusNotFound)
    else Page(Tree(owner, repo, subpath, Folders(reply.entries), Files(reply.entries)))
  }

  lemma {:induction false} SelectNamesAppend(a: seq<Entry>, b: seq<Entry>, kind: string)
    ensures SelectNames(a + b, kind) == SelectNames(a, kind) + SelectNames(b, kind)
  {
    if a != [] {
      assert (a + b)[0] == a[0];
      assert (a + b)[1..] == a[1..] + b;
      SelectNamesAppend(a[1..], b, kind);
    } else {
      assert a + b == b;
    }
  }

  lemma {:induction false} DropDotNamesAppend(a: seq<string>, b: seq<string>)
    ensures DropDotNames(a + b) == DropDotNames(a) + DropDotNames(b)
  {
    if a != [] {
      assert (a + b)[0] == a[0];
      assert (a + b)[1..] == a[1..] + b;
      DropDotNamesAppend(a[1..], b);
    } else {
      assert a + b == b;
    }
  }

  /**
   * Order is kept: the listing of two consecutive runs of entries is the
   * listing of the first run followed by the listing of the second.
   */
  lemma ListingPreservesOrder(a: seq<Entry>, b: seq<Entry>)
    ensures Folders(a + b) == Folders(a) + Folders(b)
    ensures Files(a + b) == Files(a) + Files(b)
  {
    SelectNamesAppend(a, b, DirKind);
    DropDotNamesAppend(SelectNames(a, DirKind), SelectNames(b, DirKind));
    SelectNamesAppend(a, b, FileKind);
    DropDotNamesAppend(SelectNames(a, FileKind), SelectNames(b, FileKind));
  }

  /**
   * One entry is listed exactly when it has the right type and no leading
   * dot; with `ListingPreservesOrder` this fixes the listing of every sequence.
   */
  lemma ListingOfOneEntry(e: Entry)
    ensures Folders([e]) == if e.kind == DirKind && !IsDotName(e.name) then [e.name] else []
    ensures Files([e]) == if e.kind == FileKind && !IsDotName(e.name) then [e.name] else []
  {
  }

  /** When no entry starts with '.', the dot filter removes nothing. */
  lemma {:induction false} NoDotNamesKeepsAll(names: seq<string>)
    requires forall i :: 0 <= i < |names| ==> !IsDotName(names[i])
    ensures DropDotNames(names) == names
  {
    if names != [] {
      NoDotNamesKeepsAll(names[1..]);
    }
  }
}
