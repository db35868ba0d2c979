/** One entry of the router's table, src/core/router/route.ts: a pathname,
    the page class to show there, and the page instance while it is on
    screen. Rendering into the DOM is recorded as effects. */
module Routes {
  import opened Blocks

  /** A page class (`BlockConstructor`): its name and its
      `componentDidUpdate` hook. */
  datatype View = View(name: string, didUpdate: UpdateHook)

  /** What showing pages does to the document: `getContent()?.remove()` of
      a page that is left, and `renderDOM(rootQuery, block)`. */
  datatype Effect =
    | Detach(page: Block)
    | Mount(rootQuery: string, page: Block)

  class Route {
    var pathname: string
    const view: View
    const rootQuery: string
    const props: Props
    var block: Block?

    constructor (pathname: string, view: View, rootQuery: string, props: Props)
      ensures this.pathname == pathname && this.view == view
      ensures this.rootQuery == rootQuery && this.props == props
      ensures block == null
    {
      this.pathname := pathname;
      this.view := view;
      this.rootQuery := rootQuery;
      this.props := props;
      block := null;
    }

    /** `match`: exact equality of pathnames, no patterns. */
    predicate Match(p: string)
      reads this
    {
      p == pathname
    }

    /** `leave`: a live page is removed from the document and dropped, so
        the next render builds a new one. */
    method Leave() returns (effects: seq<Effect>)
      modifies this
      ensures block == null && pathname == old(pathname)
      ensures effects == if old(block) != null then [Detach(old(block))] else []
    {
      effects := [];
      if block != null {
        effects := [Detach(block)];
        block := null;
      }
    }

    /** `render`: the page is built from the route's props on first need
        (with the generated `id`) and reused afterwards; either way it is
        mounted into the root. */
    method Render(id: nat) returns (effects: seq<Effect>)
      modifies this
      ensures pathname == old(pathname)
      ensures block != null && effects == [Mount(rootQuery, block)]
      ensures old(block) != null ==> block == old(block)
      ensures old(block) == null ==>
        fresh(block) && block.id == id && block.props == props && block.didUpdate == view.didUpdate
    {
      if block == null {
        block := new Block(id, props, view.didUpdate);
      }
      effects := [Mount(rootQuery, block)];
    }

    /** `navigate`: renders only for its own pathname, does nothing
        otherwise. */
    method Navigate(p: string, id: nat) returns (effects: seq<Effect>)
      modifies this
      ensures pathname == old(pathname)
      ensures !old(Match(p)) ==> effects == [] && block == old(block)
      ensures old(Match(p)) ==> block != null && effects == [Mount(rootQuery, block)]
      ensures old(Match(p)) && old(block) != null ==> block == old(block)
      ensures old(Match(p)) && old(block) == null ==> fresh(block) && block.id == id && block.props == props
    {
      effects := [];
      if Match(p) {
        pathname := p;
        effects := Render(id);
      }
    }
  }
}
