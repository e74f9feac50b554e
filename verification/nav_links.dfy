/**
 * The navigation bar (`NavLinks`): which links are shown for the current
 * authentication status, and which one is highlighted.
 */
module NavLinks {
  import opened Auth

  datatype Link = Link(href: string, caption: string)

  const HomeLink := Link("/", "Início")
  const SearchLink := Link("/search", "Buscar Devs")
  const ProfileLink := Link("/profile", "Perfil")
  const RegisterLink := Link("/register", "Cadastrar")
  const DebugLink := Link("/debug", "Debug")

  /** `baseLinks` */
  const BaseLinks: seq<Link> := [HomeLink, SearchLink]

  /**
   * The rendered list: the two base links, then "/profile" for a signed-in
   * visitor or "/register" for a signed-out one; nothing more while the
   * session is loading.
   */
  function Links(status: Status, hasSession: bool): (links: seq<Link>)
    ensures 2 <= |links| <= 3 && links[..2] == BaseLinks
    ensures |links| == 3 <==> (status == Authenticated && hasSession) || status == Unauthenticated
    ensures forall i :: 0 <= i < |links| ==> links[i] != DebugLink
  {
    if status == Authenticated && hasSession then BaseLinks + [ProfileLink]
    else if status == Unauthenticated then BaseLinks + [RegisterLink]
    else BaseLinks
  }

  /**
   * `NavLinks`: builds `conditionalLinks` by pushing at most one link and the
   * development-only `debugLinks`, then renders the base and conditional
   * links only. `showLoading` is the "Carregando..." indicator.
   */
  method ComputeLinks(status: Status, hasSession: bool, development: bool)
    returns (links: seq<Link>, showLoading: bool)
    ensures links == Links(status, hasSession)
    ensures status == Authenticated && hasSession ==> links[2] == ProfileLink
    ensures status == Unauthenticated ==> links[2] == RegisterLink
    ensures status == Loading ==> links == BaseLinks
    ensures showLoading <==> status == Loading
  {
    var conditionalLinks: seq<Link> := [];
    if status == Authenticated && hasSession {
      conditionalLinks := conditionalLinks + [ProfileLink];
    } else if status == Unauthenticated {
      conditionalLinks := conditionalLinks + [RegisterLink];
    }
    var debugLinks: seq<Link> := [];
    if development {
      debugLinks := debugLinks + [DebugLink];
    }
    links := BaseLinks + conditionalLinks;
    showLoading := status == Loading;
  }

  /** `pathname === link.href` */
  predicate IsActive(pathname: string, link: Link) {
    pathname == link.href
  }

  /** The links point to distinct pages, so at most one of them is highlighted. */
  lemma AtMostOneActive(status: Status, hasSession: bool, pathname: string)
    ensures var links := Links(status, hasSession);
      forall i, j :: 0 <= i < j < |links| && IsActive(pathname, links[i]) ==> !IsActive(pathname, links[j])
  {
    var links := Links(status, hasSession);
    forall i, j | 0 <= i < j < |links| && IsActive(pathname, links[i])
      ensures !IsActive(pathname, links[j])
    {
      assert links[i].href != links[j].href;
    }
  }
}
