/**
 * HTML emission for an image element (ftml render/html/element/image.rs).
 * The HTML builder is an append-only list of events: an element starts with
 * its attributes, receives its contents, and ends. The render handle's
 * image-link resolution, message lookup and link normalisation are
 * functions supplied with the context.
 */
module Image {
  import opened Wrappers

  /** An attribute, with no value for a boolean attribute such as `crossorigin`. */
  datatype Attr = Attr(name: string, value: Option<string>)

  datatype Event = Start(tag: string, attrs: seq<Attr>) | End(tag: string) | Text(text: string)

  /**
   * What the render handle answers: the URL an image source resolves to (none
   * when it is missing or in error), the localised text of a message key, and
   * the href a link location normalises to.
   */
  datatype Handle<!Source, !Link> = Handle(
    imageLink: Source -> Option<string>,
    message: string -> string,
    normalizeLink: Link -> string)

  // ---------------------------------------------------------------------------
  // The emitted events

  /** The container's class: `wj-image-container`, then a space and the alignment's class. */
  function ContainerClass<A>(alignment: Option<A>, htmlClass: A -> string): (c: string)
    ensures alignment.None? ==> c == "wj-image-container"
    ensures alignment.Some? ==> c == "wj-image-container " + htmlClass(alignment.value)
  {
    var (space, alignClass) := match alignment
      case Some(align) => (" ", htmlClass(align))
      case None => ("", "");
    "wj-image-container" + space + alignClass
  }

  /** The fixed attributes of the `img`, followed by the pass-through attributes. */
  function ImgAttrs(url: string, attributes: seq<Attr>): seq<Attr> {
    [Attr("class", Some("wj-image")), Attr("src", Some(url)), Attr("crossorigin", None)] + attributes
  }

  /** `build_image` */
  function ImgEvents(url: string, attributes: seq<Attr>): seq<Event> {
    [Start("img", ImgAttrs(url, attributes)), End("img")]
  }

  /** The container's contents: the image, wrapped in a link when there is one. */
  function LinkedImg<Source, Link>(handle: Handle<Source, Link>, url: string, link: Option<Link>, attributes: seq<Attr>): seq<Event> {
    match link
    case Some(l) => [Start("a", [Attr("href", Some(handle.normalizeLink(l)))])] + ImgEvents(url, attributes) + [End("a")]
    case None => ImgEvents(url, attributes)
  }

  /** `render_image_element` */
  function ElementEvents<Source, Link, A>(handle: Handle<Source, Link>, url: string, link: Option<Link>,
                                          alignment: Option<A>, htmlClass: A -> string, attributes: seq<Attr>): seq<Event> {
    [Start("div", [Attr("class", Some(ContainerClass(alignment, htmlClass)))])]
    + LinkedImg(handle, url, link, attributes)
    + [End("div")]
  }

  /** `render_image_missing` */
  function MissingEvents<Source, Link>(handle: Handle<Source, Link>): seq<Event> {
    [Start("div", [Attr("class", Some("wj-error-block"))]), Text(handle.message("image-context-bad")), End("div")]
  }

  /** `render_image` */
  function ImageEvents<Source, Link, A>(handle: Handle<Source, Link>, source: Source, link: Option<Link>,
                                        alignment: Option<A>, htmlClass: A -> string, attributes: seq<Attr>): seq<Event> {
    match handle.imageLink(source)
    case Some(url) => ElementEvents(handle, url, link, alignment, htmlClass, attributes)
    case None => MissingEvents(handle)
  }

  // ---------------------------------------------------------------------------
  // The context

  class HtmlContext<Source, Link> {
    const handle: Handle<Source, Link>
    /** Everything emitted so far. */
    var output: seq<Event>

    constructor (handle: Handle<Source, Link>)
      ensures this.handle == handle && output == []
    {
      this.handle := handle;
      output := [];
    }

    /** Appends one event. */
    method Emit(e: Event)
      modifies this
      ensures output == old(output) + [e]
    {
      output := output + [e];
    }

    method RenderImage<A>(source: Source, link: Option<Link>, alignment: Option<A>, htmlClass: A -> string, attributes: seq<Attr>)
      modifies this
      ensures output == old(output) + ImageEvents(handle, source, link, alignment, htmlClass, attributes)
    {
      var sourceUrl := handle.imageLink(source);
      match sourceUrl {
        case Some(url) => RenderImageElement(url, link, alignment, htmlClass, attributes);
        case None => RenderImageMissing();
      }
    }

    method RenderImageElement<A>(url: string, link: Option<Link>, alignment: Option<A>, htmlClass: A -> string, attributes: seq<Attr>)
      modifies this
      ensures output == old(output) + ElementEvents(handle, url, link, alignment, htmlClass, attributes)
    {
      Emit(Start("div", [Attr("class", Some(ContainerClass(alignment, htmlClass)))]));
      match link {
        case Some(l) =>
          var href := handle.normalizeLink(l);
          Emit(Start("a", [Attr("href", Some(href))]));
          BuildImage(url, attributes);
          Emit(End("a"));
        case None =>
          BuildImage(url, attributes);
      }
      Emit(End("div"));
    }

    /** The `build_image` closure. */
    method BuildImage(url: string, attributes: seq<Attr>)
      modifies this
      ensures output == old(output) + ImgEvents(url, attributes)
    {
      Emit(Start("img", ImgAttrs(url, attributes)));
      Emit(End("img"));
    }

    method RenderImageMissing()
      modifies this
      ensures output == old(output) + MissingEvents(handle)
    {
      var message := handle.message("image-context-bad");
      Emit(Start("div", [Attr("class", Some("wj-error-block"))]));
      Emit(Text(message));
      Emit(End("div"));
    }
  }

  // ---------------------------------------------------------------------------
  // Nesting

  /**
   * The open elements after the events, starting from `open` (innermost
   * last), or `None` when an element ends that is not the innermost open one.
   */
  function OpenAfter(open: seq<string>, events: seq<Event>): Option<seq<string>>
    decreases |events|
  {
    if |events| == 0 then Some(open)
    else
      match events[0]
      case Start(tag, _) => OpenAfter(open + [tag], events[1..])
      case Text(_) => OpenAfter(open, events[1..])
      case End(tag) =>
        if |open| > 0 && open[|open| - 1] == tag then OpenAfter(open[..|open| - 1], events[1..])
        else None
  }

  /** Every element that starts also ends, innermost first. */
  predicate WellNested(events: seq<Event>) {
    OpenAfter([], events) == Some([])
  }

  lemma {:induction false} OpenAfterAppend(open: seq<string>, a: seq<Event>, b: seq<Event>)
    requires OpenAfter(open, a).Some?
    ensures OpenAfter(open, a + b) == OpenAfter(OpenAfter(open, a).value, b)
    decreases |a|
  {
    if |a| > 0 {
      assert (a + b)[0] == a[0];
      assert (a + b)[1..] == a[1..] + b;
      match a[0] {
        case Start(tag, _) => OpenAfterAppend(open + [tag], a[1..], b);
        case Text(_) => OpenAfterAppend(open, a[1..], b);
        case End(tag) => OpenAfterAppend(open[..|open| - 1], a[1..], b);
      }
    } else {
      assert a + b == b;
    }
  }

  /** Wrapping balanced contents in one element keeps them balanced. */
  lemma Wrap(open: seq<string>, tag: string, attrs: seq<Attr>, inner: seq<Event>)
    requires OpenAfter(open + [tag], inner) == Some(open + [tag])
    ensures OpenAfter(open, [Start(tag, attrs)] + inner + [End(tag)]) == Some(open)
  {
    var s := [Start(tag, attrs)] + inner;
    assert s[0] == Start(tag, attrs) && s[1..] == inner;
    assert OpenAfter(open, s) == Some(open + [tag]);
    OpenAfterAppend(open, s, [End(tag)]);
    assert (open + [tag])[..|open + [tag]| - 1] == open;
  }

  lemma ImgNested(open: seq<string>, url: string, attributes: seq<Attr>)
    ensures OpenAfter(open, ImgEvents(url, attributes)) == Some(open)
  {
    var e := ImgEvents(url, attributes);
    assert e[1..] == [End("img")] && e[1..][1..] == [];
    assert (open + ["img"])[..|open + ["img"]| - 1] == open;
    assert OpenAfter(open + ["img"], e[1..]) == OpenAfter(open, []);
  }

  lemma LinkedNested<Source, Link>(open: seq<string>, handle: Handle<Source, Link>, url: string, link: Option<Link>, attributes: seq<Attr>)
    ensures OpenAfter(open, LinkedImg(handle, url, link, attributes)) == Some(open)
  {
    match link {
      case Some(l) =>
        ImgNested(open + ["a"], url, attributes);
        Wrap(open, "a", [Attr("href", Some(handle.normalizeLink(l)))], ImgEvents(url, attributes));
      case None =>
        ImgNested(open, url, attributes);
    }
  }

  /** Whichever branch is taken, every element emitted is closed again, innermost first. */
  lemma ImageWellNested<Source, Link, A>(handle: Handle<Source, Link>, source: Source, link: Option<Link>,
                                         alignment: Option<A>, htmlClass: A -> string, attributes: seq<Attr>)
    ensures WellNested(ImageEvents(handle, source, link, alignment, htmlClass, attributes))
  {
    match handle.imageLink(source) {
      case Some(url) =>
        LinkedNested(["div"], handle, url, link, attributes);
        assert [] + ["div"] == ["div"];
        Wrap([], "div", [Attr("class", Some(ContainerClass(alignment, htmlClass)))], LinkedImg(handle, url, link, attributes));
      case None =>
        var e := MissingEvents(handle);
        assert e[1..] == [Text(handle.message("image-context-bad")), End("div")];
        assert e[1..][1..] == [End("div")] && e[1..][1..][1..] == [];
        assert ([] + ["div"])[..0] == [];
        assert OpenAfter(["div"], e[1..][1..]) == OpenAfter([], []);
        assert OpenAfter(["div"], e[1..]) == OpenAfter(["div"], e[1..][1..]);
        assert OpenAfter([], e) == OpenAfter([] + ["div"], e[1..]);
    }
  }

  // ---------------------------------------------------------------------------
  // The two branches

  /** Some event starts an element with the tag. */
  predicate HasElement(events: seq<Event>, tag: string) {
    exists i :: 0 <= i < |events| && events[i].Start? && events[i].tag == tag
  }

  /**
   * Exactly one branch is emitted: an unresolved source gives only the error
   * block with the `image-context-bad` message and no image; a resolved one
   * gives a container holding an `img`, and never the error block.
   */
  lemma OneBranch<Source, Link, A>(handle: Handle<Source, Link>, source: Source, link: Option<Link>,
                                   alignment: Option<A>, htmlClass: A -> string, attributes: seq<Attr>)
    ensures var e := ImageEvents(handle, source, link, alignment, htmlClass, attributes);
      (handle.imageLink(source).None? <==> e == MissingEvents(handle)) &&
      (HasElement(e, "img") <==> handle.imageLink(source).Some?)
  {
    var e := ImageEvents(handle, source, link, alignment, htmlClass, attributes);
    match handle.imageLink(source) {
      case Some(url) =>
        var i := if link.Some? then 2 else 1;
        assert e[i] == Start("img", ImgAttrs(url, attributes));
        assert e[0].attrs != MissingEvents(handle)[0].attrs by {
          assert e[0].attrs[0].value.value[..5] == "wj-im";
        }
      case None =>
        assert forall i | 0 <= i < |e| :: !(e[i].Start? && e[i].tag == "img");
    }
  }

  /**
   * A resolved image: the container carries the container class, its last
   * event closes it, and the `img` carries class `wj-image`, the resolved URL
   * as `src`, `crossorigin`, then every pass-through attribute in order.
   */
  lemma ResolvedShape<Source, Link, A>(handle: Handle<Source, Link>, source: Source, link: Option<Link>,
                                       alignment: Option<A>, htmlClass: A -> string, attributes: seq<Attr>)
    requires handle.imageLink(source).Some?
    ensures var e := ImageEvents(handle, source, link, alignment, htmlClass, attributes);
      var url := handle.imageLink(source).value;
      var img := if link.Some? then 2 else 1;
      |e| == (if link.Some? then 6 else 4) &&
      e[0] == Start("div", [Attr("class", Some(ContainerClass(alignment, htmlClass)))]) &&
      e[|e| - 1] == End("div") &&
      e[img] == Start("img", [Attr("class", Some("wj-image")), Attr("src", Some(url)), Attr("crossorigin", None)] + attributes) &&
      e[img + 1] == End("img")
  {
  }

  /**
   * The link wrap: with a link, the `img` sits inside an `a` whose href is the
   * normalised link; without one, the `img` is the container's direct child.
   */
  lemma LinkWrap<Source, Link, A>(handle: Handle<Source, Link>, source: Source, link: Option<Link>,
                                  alignment: Option<A>, htmlClass: A -> string, attributes: seq<Attr>)
    requires handle.imageLink(source).Some?
    ensures var e := ImageEvents(handle, source, link, alignment, htmlClass, attributes);
      (link.Some? ==> |e| == 6 && e[1] == Start("a", [Attr("href", Some(handle.normalizeLink(link.value)))]) && e[4] == End("a")) &&
      (link.None? ==> |e| == 4 && e[1].Start? && e[1].tag == "img") &&
      (HasElement(e, "a") <==> link.Some?)
  {
    var e := ImageEvents(handle, source, link, alignment, htmlClass, attributes);
    if link.Some? {
      assert e[1].Start? && e[1].tag == "a";
    } else {
      assert forall i | 0 <= i < |e| :: !(e[i].Start? && e[i].tag == "a");
    }
  }
}
