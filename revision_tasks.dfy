/**
 * Which follow-up jobs a new page revision needs (deepwell
 * services/revision/tasks.rs): a decision table over which of the
 * provided fields differ from the current revision. The wikitext hash
 * function is a parameter.
 */
module RevisionTasks {
  import opened Wrappers

  newtype byte = x: int | 0 <= x < 256

  /** `ProvidedValue`: a field the request either leaves out or sets. */
  datatype Provided<T> = Unset | Set(value: T)

  /** The fields of the current revision that `determine` compares against. */
  datatype Revision = Revision(wikitextHash: seq<byte>, title: string, altTitle: Option<string>, slug: string)

  /** The fields of `CreateRevisionBody` that `determine` looks at. */
  datatype Changes = Changes(
    wikitext: Provided<string>,
    title: Provided<string>,
    altTitle: Provided<Option<string>>,
    slug: Provided<string>,
    tags: Provided<seq<string>>,
    metadata: Provided<string>)

  datatype Tasks = Tasks(
    render: bool,
    linksIncoming: bool,
    linksOutgoing: bool,
    rename: bool,
    rerenderIncluded: bool,
    processNavigation: bool,
    processTemplates: bool)

  const NoTasks := Tasks(false, false, false, false, false, false, false)

  /** `is_empty` holds of exactly the task set with every flag off. */
  function IsEmpty(t: Tasks): (e: bool)
    ensures e <==> t == NoTasks
  {
    !t.render && !t.linksIncoming && !t.linksOutgoing && !t.rename
    && !t.rerenderIncluded && !t.processNavigation && !t.processTemplates
  }

  // ---------------------------------------------------------------------------
  // The decision table

  predicate WikitextChanged(revision: Revision, changes: Changes, hash: string -> seq<byte>) {
    changes.wikitext.Set? && revision.wikitextHash != hash(changes.wikitext.value)
  }

  predicate TitleChanged(revision: Revision, changes: Changes) {
    changes.title.Set? && revision.title != changes.title.value
  }

  predicate AltTitleChanged(revision: Revision, changes: Changes) {
    changes.altTitle.Set? && revision.altTitle != changes.altTitle.value
  }

  predicate SlugChanged(revision: Revision, changes: Changes) {
    changes.slug.Set? && revision.slug != changes.slug.value
  }

  /** The jobs a changed wikitext calls for: everything but a rename. */
  const WikitextTasks := Tasks(true, true, true, false, true, true, true)

  /** The jobs a changed title or alternate title calls for. */
  const TitleTasks := Tasks(true, true, true, false, false, false, false)

  /** The jobs a changed slug calls for: everything but outgoing links. */
  const SlugTasks := Tasks(true, true, false, true, true, true, true)

  /** Flag-by-flag disjunction. */
  function Union(a: Tasks, b: Tasks): Tasks {
    Tasks(
      a.render || b.render,
      a.linksIncoming || b.linksIncoming,
      a.linksOutgoing || b.linksOutgoing,
      a.rename || b.rename,
      a.rerenderIncluded || b.rerenderIncluded,
      a.processNavigation || b.processNavigation,
      a.processTemplates || b.processTemplates)
  }

  function When(condition: bool, t: Tasks): Tasks {
    if condition then t else NoTasks
  }

  /** The union of what each changed field asks for. */
  function Expected(revision: Revision, changes: Changes, hash: string -> seq<byte>): Tasks {
    Union(
      Union(When(WikitextChanged(revision, changes, hash), WikitextTasks), When(TitleChanged(revision, changes), TitleTasks)),
      Union(When(AltTitleChanged(revision, changes), TitleTasks), When(SlugChanged(revision, changes), SlugTasks)))
  }

  /** `determine`: flags are switched on field by field, in the source's order. */
  method Determine(revision: Revision, changes: Changes, hash: string -> seq<byte>) returns (tasks: Tasks)
    ensures tasks == Expected(revision, changes, hash)
  {
    tasks := NoTasks;

    if changes.wikitext.Set? {
      var wikitext := changes.wikitext.value;
      if revision.wikitextHash != hash(wikitext) {
        tasks := tasks.(render := true, linksIncoming := true, linksOutgoing := true,
                        rerenderIncluded := true, processNavigation := true, processTemplates := true);
      }
    }

    // The hidden flag asks for no task.

    if changes.title.Set? {
      if revision.title != changes.title.value {
        tasks := tasks.(render := true, linksIncoming := true, linksOutgoing := true);
      }
    }

    if changes.altTitle.Set? {
      if revision.altTitle != changes.altTitle.value {
        tasks := tasks.(render := true, linksIncoming := true, linksOutgoing := true);
      }
    }

    if changes.slug.Set? {
      if revision.slug != changes.slug.value {
        tasks := tasks.(render := true, linksIncoming := true, rename := true,
                        rerenderIncluded := true, processNavigation := true, processTemplates := true);
      }
    }

    if changes.tags.Set? {
      // Tags are not checked yet
      if false {
        tasks := tasks.(render := true);
      }
    }

    if changes.metadata.Set? {
      // Metadata is not checked yet
      if false {
        tasks := tasks.(render := true);
      }
    }
  }

  // ---------------------------------------------------------------------------
  // Properties of the decision table

  /** Each flag, as a disjunction over the changed fields. */
  lemma Flags(revision: Revision, changes: Changes, hash: string -> seq<byte>)
    ensures var t := Expected(revision, changes, hash);
      var w, ti, a, s := WikitextChanged(revision, changes, hash), TitleChanged(revision, changes),
                         AltTitleChanged(revision, changes), SlugChanged(revision, changes);
      (t.render <==> w || ti || a || s) &&
      (t.linksIncoming <==> w || ti || a || s) &&
      (t.linksOutgoing <==> w || ti || a) &&
      (t.rename <==> s) &&
      (t.rerenderIncluded <==> w || s) &&
      (t.processNavigation <==> w || s) &&
      (t.processTemplates <==> w || s)
  {
  }

  /** A changed wikitext switches on every flag except `rename`. */
  lemma WikitextSetsAllButRename(revision: Revision, changes: Changes, hash: string -> seq<byte>)
    requires WikitextChanged(revision, changes, hash)
    ensures var t := Expected(revision, changes, hash);
      t.render && t.linksIncoming && t.linksOutgoing && t.rerenderIncluded && t.processNavigation && t.processTemplates
    ensures Expected(revision, changes, hash).rename <==> SlugChanged(revision, changes)
  {
  }

  /** A changed title or alternate title, and nothing else changed, sets exactly rendering and links. */
  lemma TitleSetsRenderAndLinks(revision: Revision, changes: Changes, hash: string -> seq<byte>)
    requires TitleChanged(revision, changes) || AltTitleChanged(revision, changes)
    requires !WikitextChanged(revision, changes, hash) && !SlugChanged(revision, changes)
    ensures Expected(revision, changes, hash) == NoTasks.(render := true, linksIncoming := true, linksOutgoing := true)
  {
  }

  /** A rename is due exactly when a slug is provided that differs from the revision's. */
  lemma RenameIff(revision: Revision, changes: Changes, hash: string -> seq<byte>)
    ensures Expected(revision, changes, hash).rename <==> changes.slug.Set? && changes.slug.value != revision.slug
  {
  }

  /** Tags and metadata never change any flag. */
  lemma TagsAndMetadataIgnored(revision: Revision, changes: Changes, hash: string -> seq<byte>,
                               tags: Provided<seq<string>>, metadata: Provided<string>)
    ensures Expected(revision, changes.(tags := tags, metadata := metadata), hash) == Expected(revision, changes, hash)
  {
    var other := changes.(tags := tags, metadata := metadata);
    assert other.wikitext == changes.wikitext && other.title == changes.title;
    assert other.altTitle == changes.altTitle && other.slug == changes.slug;
    assert WikitextChanged(revision, other, hash) == WikitextChanged(revision, changes, hash);
    assert TitleChanged(revision, other) == TitleChanged(revision, changes);
    assert AltTitleChanged(revision, other) == AltTitleChanged(revision, changes);
    assert SlugChanged(revision, other) == SlugChanged(revision, changes);
    hide WikitextChanged, TitleChanged, AltTitleChanged, SlugChanged, Union, When;
  }

  /** When no provided value differs from the revision, there is nothing to do. */
  lemma NothingChangedIsEmpty(revision: Revision, changes: Changes, hash: string -> seq<byte>)
    requires changes.wikitext.Set? ==> hash(changes.wikitext.value) == revision.wikitextHash
    requires changes.title.Set? ==> changes.title.value == revision.title
    requires changes.altTitle.Set? ==> changes.altTitle.value == revision.altTitle
    requires changes.slug.Set? ==> changes.slug.value == revision.slug
    ensures IsEmpty(Expected(revision, changes, hash))
  {
  }

  lemma UnionCommutes(a: Tasks, b: Tasks)
    ensures Union(a, b) == Union(b, a)
  {
  }

  lemma UnionAssociates(a: Tasks, b: Tasks, c: Tasks)
    ensures Union(Union(a, b), c) == Union(a, Union(b, c))
  {
  }

  /**
   * Flags only ever go from false to true, so the order of the checks does not
   * matter: checking the slug first and the wikitext last gives the same tasks.
   */
  lemma OrderIndependent(revision: Revision, changes: Changes, hash: string -> seq<byte>)
    ensures Expected(revision, changes, hash) ==
      Union(
        Union(When(SlugChanged(revision, changes), SlugTasks), When(AltTitleChanged(revision, changes), TitleTasks)),
        Union(When(TitleChanged(revision, changes), TitleTasks), When(WikitextChanged(revision, changes, hash), WikitextTasks)))
  {
    var w := When(WikitextChanged(revision, changes, hash), WikitextTasks);
    var t := When(TitleChanged(revision, changes), TitleTasks);
    var a := When(AltTitleChanged(revision, changes), TitleTasks);
    var s := When(SlugChanged(revision, changes), SlugTasks);
    UnionCommutes(w, t);
    UnionCommutes(a, s);
    UnionCommutes(Union(t, w), Union(s, a));
  }
}
