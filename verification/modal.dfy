/**
 * The movie detail modal (src/components/MovieModal/MovieModal.tsx): the
 * three ways it asks to be closed, the effect that locks page scrolling and
 * listens for keys while it is mounted, the image URL it shows and the
 * `modal-root` element it renders into.
 */
module MovieModal {
  import opened Wrappers
  import opened Catalog

  /** A DOM element; only its `id` attribute matters here. */
  class Element {
    var id: string

    /** `document.createElement('div')`: a new element without an id. */
    constructor ()
      ensures id == ""
    {
      id := "";
    }
  }

  /** The keydown handler one run of the effect creates and registers. */
  class KeyDownListener {
    constructor () {}
  }

  // ---------------------------------------------------------------------
  // Dismissal
  // ---------------------------------------------------------------------

  /** The inputs the modal reacts to. */
  datatype ModalInput =
    | KeyDown(code: string)
    | BackdropClick(target: Element, currentTarget: Element)
    | CloseButtonClick

  const EscapeCode := "Escape"

  /** How many times the modal calls its `onClose` prop in response to `e`:
      the Escape key and the close button close it; a click closes it only
      when it lands on the backdrop itself, not on the dialog inside it. */
  function OnCloseCalls(e: ModalInput): (calls: nat)
    ensures calls <= 1
    ensures e.KeyDown? ==> (calls == 1 <==> e.code == EscapeCode)
    ensures e.BackdropClick? ==> (calls == 1 <==> e.target == e.currentTarget)
    ensures e.CloseButtonClick? ==> calls == 1
  {
    match e
    case KeyDown(code) => if code == EscapeCode then 1 else 0
    case BackdropClick(target, currentTarget) => if target == currentTarget then 1 else 0
    case CloseButtonClick => 1
  }

  // ---------------------------------------------------------------------
  // Image URL
  // ---------------------------------------------------------------------

  const ImageBase := "https://image.tmdb.org/t/p/original"

  /** JavaScript truthiness of a nullable string: neither null nor "". */
  predicate Truthy(p: Option<string>)
    ensures Truthy(p) <==> p.Some? && Rendered(p) != ""
  {
    p.Some? && p.value != ""
  }

  /** What a template literal renders for a nullable string. */
  function Rendered(p: Option<string>): (text: string)
    ensures p.Some? ==> text == p.value
    ensures p.None? ==> text == "null"
  {
    match p
    case None => "null"
    case Some(s) => s
  }

  /** `movie.backdrop_path || movie.poster_path`. */
  function ShownPath(m: Movie): (p: Option<string>)
    ensures Truthy(m.backdropPath) ==> p == m.backdropPath
    ensures !Truthy(m.backdropPath) ==> p == m.posterPath
  {
    if Truthy(m.backdropPath) then m.backdropPath else m.posterPath
  }

  /** The `src` of the modal's image: the fixed image base followed by the
      backdrop path when that is non-empty, otherwise by the poster path. */
  function ImageUrl(m: Movie): (url: string)
    ensures |url| >= |ImageBase| && url[..|ImageBase|] == ImageBase
    ensures Truthy(m.backdropPath) ==> url[|ImageBase|..] == m.backdropPath.value
    ensures !Truthy(m.backdropPath) ==> url[|ImageBase|..] == Rendered(m.posterPath)
  {
    ImageBase + Rendered(ShownPath(m))
  }

  /** Two movies get the same image URL exactly when they show the same
      path: the base adds nothing that could make different paths collide. */
  lemma ImageUrlDeterminedByPath(a: Movie, b: Movie)
    ensures ImageUrl(a) == ImageUrl(b) <==> Rendered(ShownPath(a)) == Rendered(ShownPath(b))
  {
  }

  /** With a non-empty backdrop the poster path plays no part in the URL. */
  lemma PosterIgnoredWithBackdrop(m: Movie, poster: Option<string>)
    requires Truthy(m.backdropPath)
    ensures ImageUrl(m.(posterPath := poster)) == ImageUrl(m)
  {
  }

  // ---------------------------------------------------------------------
  // The document
  // ---------------------------------------------------------------------

  const ModalRootId := "modal-root"

  /** `document.getElementById(id)` over the body's children: the first
      child whose id is `id`, or null. */
  function FindById(children: seq<Element>, id: string): (r: Option<Element>)
    reads set e | e in children
    ensures r.Some? ==> r.value in children && r.value.id == id
    ensures r.Some? ==> exists k :: (0 <= k < |children| && children[k] == r.value
      && forall j :: 0 <= j < k ==> children[j].id != id)
    ensures r.None? <==> forall e :: e in children ==> e.id != id
  {
    if children == [] then None
    else if children[0].id == id then Some(children[0])
    else FindById(children[1..], id)
  }

  /** Appending an element with `id` to children that have none makes it the
      one `FindById` finds. */
  lemma FindByIdAppended(children: seq<Element>, e: Element, id: string)
    requires FindById(children, id).None? && e.id == id
    ensures FindById(children + [e], id) == Some(e)
  {
  }

  /** The global document state the modal touches: the body's inline
      `overflow` style, the document's keydown listeners, and the body's
      children. */
  class Doc {
    var overflow: string
    var listeners: set<KeyDownListener>
    var body: seq<Element>

    /** A document whose body has `children`, no inline overflow style and
        no keydown listeners. */
    constructor (children: seq<Element>)
      ensures overflow == "" && listeners == {} && body == children
    {
      overflow := "";
      listeners := {};
      body := children;
    }

    /** The module initialisation: reuse the element with id `modal-root`
        when there is one; otherwise create one, give it that id and append
        it to the body. Either way, afterwards the lookup finds the root. */
    method InitModalRoot() returns (root: Element)
      modifies this
      ensures old(FindById(body, ModalRootId)).Some? ==>
        root == old(FindById(body, ModalRootId)).value && body == old(body)
      ensures old(FindById(body, ModalRootId)).None? ==>
        fresh(root) && body == old(body) + [root]
      ensures root.id == ModalRootId
      ensures FindById(body, ModalRootId) == Some(root)
      ensures overflow == old(overflow) && listeners == old(listeners)
    {
      var found := FindById(body, ModalRootId);
      if found.Some? {
        root := found.value;
      } else {
        root := new Element();
      }
      if FindById(body, ModalRootId).None? {
        root.id := ModalRootId;
        FindByIdAppended(body, root, ModalRootId);
        body := body + [root];
      }
    }

    /** The effect body: lock page scrolling and register a new keydown
        handler. */
    method Mount() returns (h: KeyDownListener)
      modifies this
      ensures fresh(h)
      ensures h !in old(listeners)
      ensures overflow == "hidden"
      ensures listeners == old(listeners) + {h}
      ensures body == old(body)
    {
      h := new KeyDownListener();
      overflow := "hidden";
      listeners := listeners + {h};
    }

    /** The effect cleanup: set overflow to "auto" (not to whatever it was
        before mounting) and remove exactly the handler that run added. */
    method Cleanup(h: KeyDownListener)
      modifies this
      ensures overflow == "auto"
      ensures listeners == old(listeners) - {h}
      ensures body == old(body)
    {
      overflow := "auto";
      listeners := listeners - {h};
    }

    /** One mounted lifetime of the modal, from effect to cleanup: the
        listeners are back to what they were, and scrolling is left "auto". */
    method ShowThenDismiss()
      modifies this
      ensures listeners == old(listeners)
      ensures overflow == "auto"
      ensures body == old(body)
    {
      var h := Mount();
      Cleanup(h);
    }
  }
}
