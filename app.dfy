/**
 * The application shell: which page is shown, which product is selected, the
 * gate on the product-detail page, and when the profile-setup modal opens.
 */
module App {
  import opened Wrappers
  import Domain

  datatype Page = Home | Products | ProductDetail | Cart | Checkout | Orders | Admin

  /** The shell's navigation state: the current page and the selected product id (`null` is `None`). */
  datatype Nav = Nav(page: Page, selected: Option<int>)

  const Initial := Nav(Home, None)

  /** A product is only ever selected while the product-detail page is current. */
  predicate Consistent(nav: Nav) {
    nav.selected.Some? ==> nav.page == ProductDetail
  }

  /** `navigateToProduct`: select the product and open its page. */
  function ViewProduct(nav: Nav, productId: int): (r: Nav)
    ensures r.page == ProductDetail && r.selected == Some(productId)
    ensures Consistent(r)
  {
    Nav(ProductDetail, Some(productId))
  }

  /** `navigateTo`: open the page; leaving for any page but product-detail drops the selection. */
  function GoTo(nav: Nav, page: Page): (r: Nav)
    ensures r.page == page
    ensures page != ProductDetail ==> r.selected == None
    ensures page == ProductDetail ==> r.selected == nav.selected
    ensures Consistent(nav) ==> Consistent(r)
  {
    Nav(page, if page == ProductDetail then nav.selected else None)
  }

  /** Going to the same page twice is going there once. */
  lemma GoToIdempotent(nav: Nav, page: Page)
    ensures GoTo(GoTo(nav, page), page) == GoTo(nav, page)
  {
  }

  /** The detail page's back button and cart button leave the selection behind. */
  lemma BackClearsSelection(nav: Nav, productId: int)
    ensures GoTo(ViewProduct(nav, productId), Products) == Nav(Products, None)
    ensures GoTo(ViewProduct(nav, productId), Cart) == Nav(Cart, None)
  {
  }

  /** Re-entering product-detail through `navigateTo` keeps the product last viewed, if it is still selected. */
  lemma ReenterDetailKeepsProduct(nav: Nav, productId: int)
    ensures GoTo(ViewProduct(nav, productId), ProductDetail).selected == Some(productId)
  {
  }

  /** What the main area shows. */
  datatype Content = HomeContent | ProductsContent | DetailContent(productId: int) | CartContent
                   | CheckoutContent | OrdersContent | AdminContent | Blank

  /** The render gate: product-detail needs a truthy id, so neither `null` nor `0` renders it. */
  function MainContent(nav: Nav): (c: Content)
    ensures c.DetailContent? <==> nav.page == ProductDetail && nav.selected.Some? && nav.selected.value != 0
    ensures c.DetailContent? ==> c.productId == nav.selected.value
    ensures c == Blank <==> nav.page == ProductDetail && (nav.selected.None? || nav.selected.value == 0)
  {
    match nav.page
    case Home => HomeContent
    case Products => ProductsContent
    case ProductDetail =>
      if nav.selected.Some? && nav.selected.value != 0 then DetailContent(nav.selected.value) else Blank
    case Cart => CartContent
    case Checkout => CheckoutContent
    case Orders => OrdersContent
    case Admin => AdminContent
  }

  /** Viewing product 0 leaves the main area empty. */
  lemma ProductZeroNeverRenders(nav: Nav)
    ensures MainContent(ViewProduct(nav, 0)) == Blank
  {
  }

  /** Every other product id opens its detail page. */
  lemma ViewProductRenders(nav: Nav, productId: int)
    requires productId != 0
    ensures MainContent(ViewProduct(nav, productId)) == DetailContent(productId)
  {
  }

  /** A query's `data`: not yet there (`undefined`), `null`, or a value. */
  datatype QueryData<T> = Undefined | Null | Value(value: T)

  /** `showProfileSetup`: signed in, the profile query settled, and it answered `null`. */
  predicate ShowProfileSetup(isAuthenticated: bool, profileLoading: bool, isFetched: bool,
                             profile: QueryData<Domain.UserProfile>)
  {
    isAuthenticated && !profileLoading && isFetched && profile == Null
  }

  /** The modal never opens for a visitor who is signed out, who has a profile, or whose query has not answered. */
  lemma ProfileSetupOnlyWhenMissing(isAuthenticated: bool, profileLoading: bool, isFetched: bool,
                                    profile: QueryData<Domain.UserProfile>)
    ensures ShowProfileSetup(isAuthenticated, profileLoading, isFetched, profile) ==>
              isAuthenticated && isFetched && !profileLoading
    ensures profile.Value? || profile.Undefined? ==> !ShowProfileSetup(isAuthenticated, profileLoading, isFetched, profile)
    ensures isAuthenticated && !profileLoading && isFetched && profile.Null? ==>
              ShowProfileSetup(isAuthenticated, profileLoading, isFetched, profile)
  {
  }

  /** `isAdmin || false`: the header only gets admin links on an explicit `true`. */
  function HeaderIsAdmin(isAdmin: QueryData<bool>): (admin: bool)
    ensures admin <==> isAdmin == Value(true)
  {
    match isAdmin
    case Value(b) => b
    case _ => false
  }

  /** The shell's two state variables and the handlers that set them. */
  class Shell {
    var currentPage: Page
    var selectedProductId: Option<int>

    function State(): Nav
      reads this
    {
      Nav(currentPage, selectedProductId)
    }

    constructor ()
      ensures State() == Initial && Consistent(State())
    {
      currentPage := Home;
      selectedProductId := None;
    }

    method NavigateToProduct(productId: int)
      modifies this
      ensures State() == ViewProduct(old(State()), productId)
      ensures Consistent(State())
    {
      selectedProductId := Some(productId);
      currentPage := ProductDetail;
    }

    method NavigateTo(page: Page)
      modifies this
      ensures State() == GoTo(old(State()), page)
      ensures old(Consistent(State())) ==> Consistent(State())
    {
      currentPage := page;
      if page != ProductDetail {
        selectedProductId := None;
      }
    }
  }
}
