/**
 * A GEDCOM media object (record type OBJE): its media files, the first image
 * among them, its note, the names it is listed under, and the rule that hides
 * it when a record linking to it is hidden.
 *
 * The database, the fact parser and the other record types are parameters:
 * the record's facts are given, the SQL link query is a list of linked xrefs,
 * record lookup is `getInstance`, and the visibility of other records is an oracle.
 */
module MediaRecord {
  import opened Wrappers
  import opened PhpArrays

  /** Tag under which media objects are stored and their names registered. */
  const RecordType: string := "OBJE"

  /** One GEDCOM fact of the record: its tag, its value and its full GEDCOM text. */
  datatype Fact = Fact(tag: string, value: string, gedcom: string)

  /** A FILE fact seen through the media-file abstraction (title, filename, image test). */
  datatype MediaFile = MediaFile(title: string, filename: string, isImage: bool)

  /** A name registered on the record: its type and its text. */
  datatype Name = Name(kind: string, full: string)

  /** Following a note pointer whose target note does not exist is a fatal error. */
  datatype NoteError = MissingNoteTarget

  predicate IsFile(f: Fact) { f.tag == "FILE" }

  predicate IsNote(f: Fact) { f.tag == "NOTE" }

  predicate IsImage(m: MediaFile) { m.isImage }

  /** Index of the first element satisfying `p`, as an early-return loop finds it. */
  function FirstIndex<T>(s: seq<T>, p: T -> bool): (r: Option<nat>)
    ensures r.None? <==> forall k :: 0 <= k < |s| ==> !p(s[k])
    ensures r.Some? ==> r.value < |s| && p(s[r.value]) && forall k :: 0 <= k < r.value ==> !p(s[k])
  {
    if s == [] then None
    else if p(s[0]) then Some(0)
    else
      match FirstIndex(s[1..], p)
      case None => None
      case Some(i) => Some(i + 1)
  }

  /** The FILE facts of a record, in record order. */
  function FileFacts(facts: seq<Fact>): (r: seq<Fact>)
    ensures forall f :: f in r <==> f in facts && IsFile(f)
  {
    if facts == [] then []
    else
      var init, last := facts[..|facts| - 1], facts[|facts| - 1];
      assert facts == init + [last];
      if IsFile(last) then FileFacts(init) + [last] else FileFacts(init)
  }

  /** Taking the FILE facts commutes with concatenation, so their order is the record's. */
  lemma {:induction false} FileFactsAppend(a: seq<Fact>, b: seq<Fact>)
    ensures FileFacts(a + b) == FileFacts(a) + FileFacts(b)
  {
    if b != [] {
      var init := b[..|b| - 1];
      assert (a + b)[..|a + b| - 1] == a + init;
      FileFactsAppend(a, init);
    } else {
      assert a + b == a;
    }
  }

  /** The media files of a record, one per FILE fact, as `mediaFiles()` builds them. */
  function MediaFileList(facts: seq<Fact>, parse: string -> MediaFile): seq<MediaFile>
  {
    if facts == [] then []
    else
      var init, last := facts[..|facts| - 1], facts[|facts| - 1];
      if IsFile(last) then MediaFileList(init, parse) + [parse(last.gedcom)]
      else MediaFileList(init, parse)
  }

  /** Exactly one media file per FILE fact, built from that fact, in the same order. */
  lemma {:induction false} MediaFileListPerFact(facts: seq<Fact>, parse: string -> MediaFile)
    ensures |MediaFileList(facts, parse)| == |FileFacts(facts)|
    ensures forall k :: 0 <= k < |FileFacts(facts)| ==>
      MediaFileList(facts, parse)[k] == parse(FileFacts(facts)[k].gedcom)
  {
    if facts != [] {
      MediaFileListPerFact(facts[..|facts| - 1], parse);
    }
  }

  /** A record without FILE facts has no media files, and one with a FILE fact has some. */
  lemma MediaFileListEmpty(facts: seq<Fact>, parse: string -> MediaFile)
    ensures MediaFileList(facts, parse) == [] <==> forall f :: f in facts ==> !IsFile(f)
  {
    MediaFileListPerFact(facts, parse);
    if FileFacts(facts) != [] {
      assert FileFacts(facts)[0] in FileFacts(facts);
    }
  }

  /**
   * The regular expression `^@XREF@$` of PHP: `$` also matches before a final newline.
   * A pointer is `@X@` or `@X@` followed by a newline, for an X the xref pattern accepts.
   */
  predicate IsXrefPointer(text: string, isXref: string -> bool)
    ensures IsXrefPointer(text, isXref) <==>
      exists x :: isXref(x) && (text == "@" + x + "@" || text == "@" + x + "@\n")
  {
    var plain := |text| >= 2 && text[0] == '@' && text[|text| - 1] == '@' && isXref(text[1..|text| - 1]);
    var newline := |text| >= 3 && text[0] == '@' && text[|text| - 2] == '@' && text[|text| - 1] == '\n'
                   && isXref(text[1..|text| - 2]);
    assert plain ==> text == "@" + text[1..|text| - 1] + "@";
    assert newline ==> text == "@" + text[1..|text| - 2] + "@\n";
    assert forall x :: text == "@" + x + "@" ==> x == text[1..|text| - 1];
    assert forall x :: text == "@" + x + "@\n" ==> x == text[1..|text| - 2];
    plain || newline
  }

  /** The names to register: titles and filenames, unique, truthy, else the fallback. */
  function RawNames(files: seq<MediaFile>): seq<string>
  {
    if files == [] then []
    else
      var init, last := files[..|files| - 1], files[|files| - 1];
      RawNames(init) + [last.title, last.filename]
  }

  /** The names gathered from the files are exactly their titles and filenames. */
  lemma {:induction false} RawNamesMembers(files: seq<MediaFile>)
    ensures forall x :: x in RawNames(files) <==> exists f :: f in files && (x == f.title || x == f.filename)
  {
    if files != [] {
      var init, last := files[..|files| - 1], files[|files| - 1];
      RawNamesMembers(init);
      assert files == init + [last];
      forall x | x in RawNames(files)
        ensures exists f :: f in files && (x == f.title || x == f.filename)
      {
        if x in RawNames(init) {
          var f :| f in init && (x == f.title || x == f.filename);
          assert f in files;
        } else {
          assert last in files;
        }
      }
    }
  }

  /** The list of names `extractNames` registers, given the record's media files. */
  function NamesToRegister(files: seq<MediaFile>, fallback: string): seq<string>
  {
    var kept := DropFalsy(Unique(RawNames(files)));
    if kept == [] then [fallback] else kept
  }

  /** True iff some media file has a truthy title or filename. */
  predicate HasTruthyName(files: seq<MediaFile>)
  {
    exists f :: f in files && (!Falsy(f.title) || !Falsy(f.filename))
  }

  /**
   * What `extractNames` registers: at least one name; the fallback alone exactly when no
   * file has a truthy title or filename; otherwise every truthy title and filename, each
   * once, no falsy string, in the order of first occurrence.
   */
  lemma ExtractedNames(files: seq<MediaFile>, fallback: string)
    ensures var r := NamesToRegister(files, fallback);
      && |r| >= 1
      && (!HasTruthyName(files) ==> r == [fallback])
      && (HasTruthyName(files) ==>
            && NoDuplicates(r)
            && (forall x :: x in r <==> !Falsy(x) && exists f :: f in files && (x == f.title || x == f.filename))
            && FirstOccurrenceOrder(r, RawNames(files)))
  {
    var raw := RawNames(files);
    RawNamesMembers(files);
    UniqueOrder(raw);
    DropFalsyKeeps(Unique(raw), raw);
    var kept := DropFalsy(Unique(raw));
    if HasTruthyName(files) {
      var f :| f in files && (!Falsy(f.title) || !Falsy(f.filename));
      if !Falsy(f.title) {
        assert f.title in kept;
      } else {
        assert f.filename in kept;
      }
    } else if kept != [] {
      assert kept[0] in kept;
    }
  }

  /** The names registered for a list of name texts, all of type OBJE. */
  function Registered(ns: seq<string>): (r: seq<Name>)
    ensures |r| == |ns|
    ensures forall k :: 0 <= k < |ns| ==> r[k] == Name(RecordType, ns[k])
  {
    if ns == [] then [] else Registered(ns[..|ns| - 1]) + [Name(RecordType, ns[|ns| - 1])]
  }

  /** A media object: its xref, its facts (fixed once loaded) and its registered names. */
  class Media {
    const xref: string
    const facts: seq<Fact>
    var names: seq<Name>

    constructor (xref: string, facts: seq<Fact>)
      ensures this.xref == xref && this.facts == facts && names == []
    {
      this.xref := xref;
      this.facts := facts;
      names := [];
    }

    /**
     * Hide the object if an existing record linking to it is hidden at `accessLevel`;
     * links to records that do not exist are skipped; otherwise the rule of the
     * parent class (`parentRule`) decides.
     */
    function CanShowByType<R>(accessLevel: int, linkedIds: seq<string>, getInstance: string -> Option<R>,
                              canShow: (R, int) -> bool, parentRule: bool): (r: bool)
      ensures r <==> parentRule && forall k :: 0 <= k < |linkedIds| && getInstance(linkedIds[k]).Some? ==>
                                                canShow(getInstance(linkedIds[k]).value, accessLevel)
    {
      if linkedIds == [] then parentRule
      else
        match getInstance(linkedIds[0])
        case Some(linked) =>
          if !canShow(linked, accessLevel) then false
          else CanShowByType(accessLevel, linkedIds[1..], getInstance, canShow, parentRule)
        case None => CanShowByType(accessLevel, linkedIds[1..], getInstance, canShow, parentRule)
    }

    /** The media files, one per FILE fact, built in a loop as `mediaFiles()` does. */
    method MediaFiles(parse: string -> MediaFile) returns (files: seq<MediaFile>)
      ensures files == MediaFileList(facts, parse)
    {
      files := [];
      for i := 0 to |facts|
        invariant files == MediaFileList(facts[..i], parse)
      {
        assert facts[..i + 1][..i] == facts[..i];
        if IsFile(facts[i]) {
          files := files + [parse(facts[i].gedcom)];
        }
      }
      assert facts[..|facts|] == facts;
    }

    /** The first media file that is an image, or none. */
    function FirstImageFile(parse: string -> MediaFile): (r: Option<MediaFile>)
      ensures r.None? <==> forall m :: m in MediaFileList(facts, parse) ==> !m.isImage
      ensures r.Some? ==>
        var files := MediaFileList(facts, parse);
        r.value.isImage &&
        exists i :: 0 <= i < |files| && files[i] == r.value && forall j :: 0 <= j < i ==> !files[j].isImage
    {
      var files := MediaFileList(facts, parse);
      match FirstIndex(files, IsImage)
      case None => None
      case Some(i) => Some(files[i])
    }

    /**
     * The first note: "" without a NOTE fact; for an `@XREF@` pointer, whatever the linked
     * note's own `getNote()` gives (its text, or null), and an error when that note does not
     * exist; the value itself otherwise. `noteTarget` is None for a missing target note and
     * Some(None) for a target note whose `getNote()` is null.
     */
    function GetNote(isXref: string -> bool, noteTarget: string -> Option<Option<string>>)
      : (r: Result<Option<string>, NoteError>)
      ensures (forall f :: f in facts ==> !IsNote(f)) ==> r == Success(Some(""))
      ensures r.Failure? ==> exists f :: f in facts && IsNote(f) && IsXrefPointer(f.value, isXref)
                                           && noteTarget(f.value).None?
      ensures r == Success(None) ==> exists f :: f in facts && IsNote(f) && IsXrefPointer(f.value, isXref)
                                                   && noteTarget(f.value) == Some(None)
    {
      match FirstIndex(facts, IsNote)
      case None => Success(Some(""))
      case Some(i) =>
        var text := facts[i].value;
        if IsXrefPointer(text, isXref) then
          match noteTarget(text)
          case Some(note) => Success(note)
          case None => Failure(MissingNoteTarget)
        else Success(Some(text))
    }

    /** Register one name (of the given type) on the record. */
    method AddName(kind: string, full: string)
      modifies this
      ensures names == old(names) + [Name(kind, full)]
    {
      names := names + [Name(kind, full)];
    }

    /**
     * Register the titles and filenames of the media files, without duplicates or falsy
     * values, or the fallback name when none is left.
     */
    method ExtractNames(parse: string -> MediaFile, fallback: string)
      modifies this
      ensures names == old(names) + Registered(NamesToRegister(MediaFileList(facts, parse), fallback))
    {
      var files := MediaFiles(parse);
      var raw: seq<string> := [];
      for i := 0 to |files|
        invariant raw == RawNames(files[..i])
      {
        assert files[..i + 1][..i] == files[..i];
        raw := raw + [files[i].title];
        raw := raw + [files[i].filename];
      }
      assert files[..|files|] == files;
      var unique: seq<string> := [];
      for i := 0 to |raw|
        invariant unique == Unique(raw[..i])
      {
        assert raw[..i + 1][..i] == raw[..i];
        if raw[i] !in unique {
          unique := unique + [raw[i]];
        }
      }
      assert raw[..|raw|] == raw;
      var kept: seq<string> := [];
      for i := 0 to |unique|
        invariant kept == DropFalsy(unique[..i])
      {
        assert unique[..i + 1][..i] == unique[..i];
        if !Falsy(unique[i]) {
          kept := kept + [unique[i]];
        }
      }
      assert unique[..|unique|] == unique;
      if kept == [] {
        kept := kept + [fallback];
      }
      for i := 0 to |kept|
        invariant names == old(names) + Registered(kept[..i])
      {
        assert kept[..i + 1][..i] == kept[..i];
        AddName(RecordType, kept[i]);
      }
      assert kept[..|kept|] == kept;
    }
  }
  /** A link to a record that does not exist never changes the decision, wherever it sits. */
  lemma DanglingLinkIgnored<R>(m: Media, accessLevel: int, pre: seq<string>, missing: string, post: seq<string>,
                               getInstance: string -> Option<R>, canShow: (R, int) -> bool, parentRule: bool)
    requires getInstance(missing).None?
    ensures m.CanShowByType(accessLevel, pre + [missing] + post, getInstance, canShow, parentRule)
         == m.CanShowByType(accessLevel, pre + post, getInstance, canShow, parentRule)
  {
    var withLink, without := pre + [missing] + post, pre + post;
    forall k | 0 <= k < |withLink| && getInstance(withLink[k]).Some?
      ensures exists k' :: 0 <= k' < |without| && without[k'] == withLink[k]
    {
      if k < |pre| {
        assert without[k] == withLink[k];
      } else {
        assert k > |pre|;
        assert without[k - 1] == withLink[k];
      }
    }
    forall k' | 0 <= k' < |without|
      ensures exists k :: 0 <= k < |withLink| && withLink[k] == without[k']
    {
      if k' < |pre| {
        assert withLink[k'] == without[k'];
      } else {
        assert withLink[k' + 1] == without[k'];
      }
    }
  }

  /** A hidden record linking to the media object hides it, whatever the parent rule says. */
  lemma HiddenLinkHides<R>(m: Media, accessLevel: int, linkedIds: seq<string>, k: nat,
                           getInstance: string -> Option<R>, canShow: (R, int) -> bool, parentRule: bool)
    requires k < |linkedIds| && getInstance(linkedIds[k]).Some?
    requires !canShow(getInstance(linkedIds[k]).value, accessLevel)
    ensures !m.CanShowByType(accessLevel, linkedIds, getInstance, canShow, parentRule)
  {
  }

  /** `getNote` looks only at the first NOTE fact: the facts after it do not matter. */
  lemma {:induction false} GetNoteReadsFirstNote(m: Media, pre: seq<Fact>, note: Fact, post: seq<Fact>,
                                                 isXref: string -> bool, noteTarget: string -> Option<Option<string>>)
    requires m.facts == pre + [note] + post
    requires IsNote(note) && forall f :: f in pre ==> !IsNote(f)
    ensures m.GetNote(isXref, noteTarget) ==
      if !IsXrefPointer(note.value, isXref) then Success(Some(note.value))
      else if noteTarget(note.value).Some? then Success(noteTarget(note.value).value)
      else Failure(MissingNoteTarget)
  {
    var i := FirstIndex(m.facts, IsNote);
    assert m.facts[|pre|] == note;
    assert forall k :: 0 <= k < |pre| ==> m.facts[k] == pre[k];
    assert i == Some(|pre|);
  }

  /** `@X@` and `@X@` followed by a newline are pointers exactly when X is an xref. */
  lemma XrefPointerForms(x: string, isXref: string -> bool)
    ensures IsXrefPointer("@" + x + "@", isXref) <==> isXref(x)
    ensures IsXrefPointer("@" + x + "@\n", isXref) <==> isXref(x)
  {
    var t := "@" + x + "@";
    assert t[1..|t| - 1] == x;
    var u := t + "\n";
    assert u == "@" + x + "@\n";
    assert u[1..|u| - 2] == x;
  }
}
