/** CategoryPermission (store/permissions.py). */
module StorePermissions {
  import opened Users

  datatype HttpMethod = Get | Head | Options | Post | Put | Patch | Delete

  /** GET, HEAD and OPTIONS. */
  predicate IsSafe(m: HttpMethod) {
    m == Get || m == Head || m == Options
  }

  /** `CategoryPermission.has_permission`. An anonymous user is not staff. */
  function HasCategoryPermission(m: HttpMethod, authenticated: bool, isStaff: bool, role: Role): (allowed: bool)
    ensures IsSafe(m) ==> allowed
    ensures m == Post && authenticated ==> (allowed <==> isStaff || role == Seller)
    ensures !IsSafe(m) && !(m == Post && authenticated) ==> (allowed <==> isStaff)
  {
    if IsSafe(m) then true
    else if m == Post && authenticated then isStaff || role == Seller
    else isStaff
  }

  /** A seller who is not staff may create categories but never update or
      delete them; an anonymous POST falls through to the staff check and is
      refused. */
  lemma SellerCreatesOnly(m: HttpMethod)
    ensures HasCategoryPermission(Post, true, false, Seller)
    ensures m in {Put, Patch, Delete} ==> !HasCategoryPermission(m, true, false, Seller)
    ensures !HasCategoryPermission(Post, false, false, Seller)
  {
  }

  /** Staff may do anything; a non-staff customer may only read. */
  lemma StaffAndCustomers(m: HttpMethod, authenticated: bool)
    ensures HasCategoryPermission(m, authenticated, true, Customer)
    ensures HasCategoryPermission(m, authenticated, false, Customer) <==> IsSafe(m)
  {
  }
}
