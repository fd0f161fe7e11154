/**
 * The test application's rule set (tests/testapp/rules.py) as a concrete
 * `has_perm`, and the requirement declarations of its views and viewsets
 * (tests/testapp/views.py, tests/testapp/viewsets.py), checked against the
 * outcomes the test suite expects.
 */
module Scenarios {
  import opened Wrappers
  import opened Mixins

  /** A book; the rules used here never look at the object. */
  datatype Book = Book(author: string)

  /** Permissions registered with `is_anton`. */
  const AntonOnly: set<string> := {
    "testapp.access_single_permission_view",
    "testapp.access_multiple_permissions_view_1",
    "testapp.access_single_permission_generic_view",
    "testapp.access_single_permission_object",
    "testapp.access_multiple_permissions_object_1",
    "testapp.access_single_permission_method",
    "testapp.access_multiple_permissions_method_1",
    "testapp.access_single_object_permission_method",
    "testapp.access_multiple_object_permissions_method_1",
    "testapp.access_single_permission_viewset",
    "testapp.access_multiple_permissions_viewset_1",
    "testapp.access_single_permission_generic_viewset",
    "testapp.access_single_permission_detail_route",
    "testapp.access_multiple_permissions_detail_route_1"
  }

  /** Permissions registered with `is_anton | is_beatrix`. */
  const AntonOrBeatrix: set<string> := {
    "testapp.access_multiple_permissions_view_2",
    "testapp.access_multiple_permissions_generic_view",
    "testapp.access_multiple_permissions_object_2",
    "testapp.access_multiple_permissions_method_2",
    "testapp.access_multiple_object_permissions_method_2",
    "testapp.access_multiple_permissions_viewset_2",
    "testapp.access_multiple_permissions_detail_route_2"
  }

  /**
   * `user.has_perm(perm, obj)` under the registered rules, for a user given by
   * username; a name that was never registered is granted to nobody.
   */
  function TestRules(username: string, perm: string, obj: Option<Book>): (granted: bool)
    ensures granted ==> username == "anton" || username == "beatrix"
    ensures granted && username == "beatrix" ==> perm in AntonOrBeatrix
  {
    (perm in AntonOnly && username == "anton")
    || (perm in AntonOrBeatrix && (username == "anton" || username == "beatrix"))
  }

  const ImproperlyConfiguredAPIView := View("ImproperlyConfiguredAPIView", None, None)
  const SinglePermissionView :=
    View("SinglePermissionView", Some(Single(ViewPerm)), None)
  const MultiplePermissionsView :=
    View("MultiplePermissionsView",
         Some(Many([ViewPerm1, ViewPerm2])),
         None)
  const GenericViewWithoutObjectPermissions :=
    View("GenericViewWithoutObjectPermissions", Some(Single("testapp.permission_required")), None)
  const SinglePermissionGenericView :=
    View("SinglePermissionGenericView", Some(Single(GenericViewPerm)), Some(Single(ObjectPerm)))
  const MultiplePermissionsGenericView :=
    View("MultiplePermissionsGenericView",
         Some(Single("testapp.access_multiple_permissions_generic_view")),
         Some(Many([ObjectPerm1, ObjectPerm2])))
  /** Carlos is granted nothing at all under these rules. */
  lemma CarlosMissesEverything(perms: seq<string>, obj: Option<Book>)
    ensures Missing(perms, TestRules, "carlos", obj) == perms
  {
  }

  /** A view without `permission_required` fails with the configuration error for every user, at both levels. */
  lemma ImproperlyConfiguredRaises(username: string, book: Book)
    ensures CheckPermissions(ImproperlyConfiguredAPIView, username, TestRules) ==
              Misconfigured("ImproperlyConfiguredAPIView")
    ensures CheckObjectPermissions(ImproperlyConfiguredAPIView, username, book, TestRules) ==
              Misconfigured("ImproperlyConfiguredAPIView")
  {
  }

  const ViewPerm := "testapp.access_single_permission_view"
  const ViewPerm1 := "testapp.access_multiple_permissions_view_1"
  const ViewPerm2 := "testapp.access_multiple_permissions_view_2"
  const GenericViewPerm := "testapp.access_single_permission_generic_view"
  const ObjectPerm := "testapp.access_single_permission_object"
  const ObjectPerm1 := "testapp.access_multiple_permissions_object_1"
  const ObjectPerm2 := "testapp.access_multiple_permissions_object_2"

  /** Single declaration: anton passes; beatrix is denied, naming the one identifier. */
  lemma SinglePermissionScenarios()
    ensures SinglePermissionView.permissionRequired == Some(Single(ViewPerm))
    ensures CheckPermissions(SinglePermissionView, "anton", TestRules) == Allowed
    ensures CheckPermissions(SinglePermissionView, "beatrix", TestRules) == Denied(MissingPrefix + ViewPerm)
  {
  }

  /** Two identifiers, the second granted through `is_anton | is_beatrix`: anton has both. */
  lemma MultiplePermissionsAnton()
    ensures MultiplePermissionsView.permissionRequired == Some(Many([ViewPerm1, ViewPerm2]))
    ensures CheckPermissions(MultiplePermissionsView, "anton", TestRules) == Allowed
  {
  }

  /** Beatrix holds only the second identifier, so only the first is named. */
  lemma MultiplePermissionsBeatrix()
    ensures CheckPermissions(MultiplePermissionsView, "beatrix", TestRules) == Denied(MissingPrefix + ViewPerm1)
  {
    assert !TestRules("beatrix", ViewPerm1, None) && TestRules("beatrix", ViewPerm2, None);
    assert Missing([ViewPerm2], TestRules, "beatrix", None) == [];
    assert Missing([ViewPerm1, ViewPerm2], TestRules, "beatrix", None) == [ViewPerm1];
    DeniedNaming([ViewPerm1, ViewPerm2], TestRules, "beatrix", None, ViewPerm1);
  }

  /** Carlos holds neither: both are named, in declared order, separated by ", ". */
  lemma MultiplePermissionsCarlos()
    ensures CheckPermissions(MultiplePermissionsView, "carlos", TestRules) ==
              Denied(MissingPrefix + ViewPerm1 + Separator + ViewPerm2)
  {
    CarlosMissesEverything([ViewPerm1, ViewPerm2], None);
    assert Join(Separator, [ViewPerm1, ViewPerm2]) == ViewPerm1 + Separator + ViewPerm2;
  }

  /** Without an object-level declaration the object check uses `permission_required`. */
  lemma FallbackScenario()
    ensures GetObjectPermissionRequired(GenericViewWithoutObjectPermissions) ==
              GetPermissionRequired(GenericViewWithoutObjectPermissions)
    ensures GetObjectPermissionRequired(GenericViewWithoutObjectPermissions) ==
              Required(["testapp.permission_required"])
  {
  }

  /** Object-level declaration: anton holds both object permissions. */
  lemma ObjectPermissionAnton(book: Book)
    ensures MultiplePermissionsGenericView.objectPermissionRequired == Some(Many([ObjectPerm1, ObjectPerm2]))
    ensures CheckObjectPermissions(MultiplePermissionsGenericView, "anton", book, TestRules) == Allowed
  {
  }

  /** Beatrix misses the first object permission only. */
  lemma ObjectPermissionBeatrix(book: Book)
    ensures CheckObjectPermissions(MultiplePermissionsGenericView, "beatrix", book, TestRules) ==
              Denied(MissingPrefix + ObjectPerm1)
  {
    var obj := Some(book);
    assert !TestRules("beatrix", ObjectPerm1, obj) && TestRules("beatrix", ObjectPerm2, obj);
    assert Missing([ObjectPerm2], TestRules, "beatrix", obj) == [];
    assert Missing([ObjectPerm1, ObjectPerm2], TestRules, "beatrix", obj) == [ObjectPerm1];
    DeniedNaming([ObjectPerm1, ObjectPerm2], TestRules, "beatrix", obj, ObjectPerm1);
  }

  /** Carlos misses both object permissions. */
  lemma ObjectPermissionCarlos(book: Book)
    ensures CheckObjectPermissions(MultiplePermissionsGenericView, "carlos", book, TestRules) ==
              Denied(MissingPrefix + ObjectPerm1 + Separator + ObjectPerm2)
  {
    CarlosMissesEverything([ObjectPerm1, ObjectPerm2], Some(book));
    assert Join(Separator, [ObjectPerm1, ObjectPerm2]) == ObjectPerm1 + Separator + ObjectPerm2;
  }

  /** Single object-level declaration: anton passes both the plain and the object check. */
  lemma SinglePermissionGenericAnton(book: Book)
    ensures CheckPermissions(SinglePermissionGenericView, "anton", TestRules) == Allowed
    ensures CheckObjectPermissions(SinglePermissionGenericView, "anton", book, TestRules) == Allowed
  {
  }

  // The viewsets of the test application.

  const ViewSetPerm := "testapp.access_single_permission_viewset"
  const ViewSetPerm1 := "testapp.access_multiple_permissions_viewset_1"
  const ViewSetPerm2 := "testapp.access_multiple_permissions_viewset_2"
  const GenericViewSetPerm := "testapp.access_single_permission_generic_viewset"
  /** Object permissions that `MultiplePermissionsGenericViewSet` declares but no rule registers. */
  const UnregisteredPerm1 := "testapp.access_single_permission_permission_object_1"
  const UnregisteredPerm2 := "testapp.access_single_permission_permission_object_2"

  const ImproperlyConfiguredViewSet := View("ImproperlyConfiguredViewSet", None, None)
  const SinglePermissionViewSet := View("SinglePermissionViewSet", Some(Single(ViewSetPerm)), None)
  const MultiplePermissionsViewSet :=
    View("MultiplePermissionsViewSet", Some(Many([ViewSetPerm1, ViewSetPerm2])), None)
  const GenericViewSetWithoutObjectPermissions :=
    View("GenericViewSetWithoutObjectPermissions", Some(Single("testapp.permission_required")), None)
  const SinglePermissionGenericViewSet :=
    View("SinglePermissionGenericViewSet", Some(Single(GenericViewSetPerm)), Some(Single(ObjectPerm)))
  const MultiplePermissionsGenericViewSet :=
    View("MultiplePermissionsGenericViewSet",
         Some(Single(GenericViewSetPerm)),
         Some(Many([UnregisteredPerm1, UnregisteredPerm2])))

  /** The viewset without a declaration raises for every user, at both levels. */
  lemma ImproperlyConfiguredViewSetRaises(username: string, book: Book)
    ensures CheckPermissions(ImproperlyConfiguredViewSet, username, TestRules) ==
              Misconfigured("ImproperlyConfiguredViewSet")
    ensures CheckObjectPermissions(ImproperlyConfiguredViewSet, username, book, TestRules) ==
              Misconfigured("ImproperlyConfiguredViewSet")
  {
  }

  /** Single viewset declaration: anton passes; beatrix is denied, naming it. */
  lemma SinglePermissionViewSetScenarios()
    ensures CheckPermissions(SinglePermissionViewSet, "anton", TestRules) == Allowed
    ensures CheckPermissions(SinglePermissionViewSet, "beatrix", TestRules) == Denied(MissingPrefix + ViewSetPerm)
  {
  }

  /** Two viewset identifiers: anton passes, beatrix misses the first, carlos both in order. */
  lemma MultiplePermissionsViewSetScenarios()
    ensures CheckPermissions(MultiplePermissionsViewSet, "anton", TestRules) == Allowed
    ensures CheckPermissions(MultiplePermissionsViewSet, "beatrix", TestRules) ==
              Denied(MissingPrefix + ViewSetPerm1)
    ensures CheckPermissions(MultiplePermissionsViewSet, "carlos", TestRules) ==
              Denied(MissingPrefix + ViewSetPerm1 + Separator + ViewSetPerm2)
  {
    assert !TestRules("beatrix", ViewSetPerm1, None) && TestRules("beatrix", ViewSetPerm2, None);
    assert Missing([ViewSetPerm2], TestRules, "beatrix", None) == [];
    assert Missing([ViewSetPerm1, ViewSetPerm2], TestRules, "beatrix", None) == [ViewSetPerm1];
    DeniedNaming([ViewSetPerm1, ViewSetPerm2], TestRules, "beatrix", None, ViewSetPerm1);
    CarlosMissesEverything([ViewSetPerm1, ViewSetPerm2], None);
    assert Join(Separator, [ViewSetPerm1, ViewSetPerm2]) == ViewSetPerm1 + Separator + ViewSetPerm2;
  }

  /** Without an object-level declaration the viewset's object check uses `permission_required`. */
  lemma ViewSetFallbackScenario()
    ensures GetObjectPermissionRequired(GenericViewSetWithoutObjectPermissions) ==
              GetPermissionRequired(GenericViewSetWithoutObjectPermissions)
  {
  }

  /** Single object-level viewset declaration: anton passes both checks. */
  lemma SinglePermissionGenericViewSetAnton(book: Book)
    ensures CheckPermissions(SinglePermissionGenericViewSet, "anton", TestRules) == Allowed
    ensures CheckObjectPermissions(SinglePermissionGenericViewSet, "anton", book, TestRules) == Allowed
  {
  }

  /**
   * The object permissions of `MultiplePermissionsGenericViewSet` are registered with
   * no rule, so the object check denies every user, anton included, naming both.
   */
  lemma UnregisteredObjectPermissionsDenyEveryone(username: string, book: Book)
    ensures CheckObjectPermissions(MultiplePermissionsGenericViewSet, username, book, TestRules) ==
              Denied(MissingPrefix + UnregisteredPerm1 + Separator + UnregisteredPerm2)
  {
    assert !TestRules(username, UnregisteredPerm1, Some(book));
    assert !TestRules(username, UnregisteredPerm2, Some(book));
    NoneGrantedAllMissing([UnregisteredPerm1, UnregisteredPerm2], TestRules, username, Some(book));
    assert Join(Separator, [UnregisteredPerm1, UnregisteredPerm2]) == UnregisteredPerm1 + Separator + UnregisteredPerm2;
  }
}
