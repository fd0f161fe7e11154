# Permission checks of `PermissionRequiredMixin`

A Dafny model of the authorization decision that django-rest-framework-rules puts
in front of a Django REST Framework view: `PermissionRequiredMixin` in
`rest_framework_rules/mixins.py`.

A view class declares `permission_required` and, optionally,
`object_permission_required`. Each is either a single permission name (`str`) or
a collection of names. The mixin does two things.

- **Resolution.** `get_permission_required` raises `ImproperlyConfigured` when
  `permission_required` is `None`. A single name becomes a one-element tuple, and
  any other collection is returned as it is. `get_object_permission_required`
  falls back to that resolution when `object_permission_required` is `None`.
  Otherwise it resolves its own attribute the same way.
- **Enforcement.** `check_permissions` and `check_object_permissions` keep the
  resolved names for which the user's `has_perm(perm)` or `has_perm(perm, obj)` is
  false. The view is denied when Python's `any` holds of that list. The message
  is `"MISSING: "` followed by the missing names joined with `", "`.

Files:

- `wrappers.dfy`: module `Wrappers`, the `Option` type that stands for a `None`
  default.
- `mixins.dfy`: module `Mixins`.
  - Declarations are `Decl = Single(id) | Many(ids)`. A view is its class name
    plus the two optional declarations.
  - Resolution yields `Required(ids)` or `NotConfigured(className)`.
  - A check yields `Allowed`, `Denied(message)` (DRF's `permission_denied`) or
    `Misconfigured(className)` (the `ImproperlyConfigured` escaping resolution).
  - The user's rule engine is a parameter `hasPerm(user, perm, obj)`, where `obj`
    is an `Option`. This matches Django's `User.has_perm(perm, obj=None)`.
- `scenarios.dfy`: module `Scenarios`. It instantiates `hasPerm` with the rules
  registered in `tests/testapp/rules.py`. It uses the mixin declarations of
  `tests/testapp/views.py` and `tests/testapp/viewsets.py`. For each of them it
  proves the outcomes that the test suite expects for anton, beatrix and carlos.
  The object permissions of `MultiplePermissionsGenericViewSet` are never
  registered, so its object check denies anton as well
  (`UnregisteredObjectPermissionsDenyEveryone`).

Both checks are total functions of the declarations, the user, the object and
`hasPerm`. So they cannot change the declarations, the user or the object, and
their only outcomes are the three above.

Three behaviours of the code worth stating explicitly:

- An explicitly empty collection is not rejected. It resolves to no names, and
  every check then passes (`EmptyDeclarationAllows`).
- The separator in the message is `", "`, comma and space.
- The deny test is `any(missing)`. A missing name that is the empty string does
  not deny by itself (`EmptyIdentifierIsNotEnforced`).

## Model

| member | source | states |
|---|---|---|
| `Mixins.GetPermissionRequired` | rest_framework_rules/mixins.py:9-27 | Raises the configuration error, carrying the class name, exactly when `permission_required` is `None`. A single name resolves to `[name]`. A collection resolves to itself, with order and length kept. |
| `Mixins.GetObjectPermissionRequired` | rest_framework_rules/mixins.py:29-39 | With no object-level declaration it equals plain resolution, including the error. With one, it is that declaration normalised, whatever `permission_required` is. It fails only when both attributes are `None`. |
| `Mixins.Missing` | rest_framework_rules/mixins.py:43-46 | The comprehension keeps only names the user lacks, and only names from the input. It keeps every name the user lacks, and is never longer than the input. |
| `Mixins.MissingIsSubsequence` | rest_framework_rules/mixins.py:54-55 | The missing list is an order-preserving subsequence of the resolved names. |
| `Mixins.MissingDistributes` | rest_framework_rules/mixins.py:43-46 | Filtering a concatenation concatenates the filtered parts, so the filter works name by name in declared order. |
| `Mixins.MissingSingleton` | rest_framework_rules/mixins.py:45 | A single name is kept exactly when `has_perm` is false for it. |
| `Mixins.AnyTruthy` | rest_framework_rules/mixins.py:47 | `any` over strings holds iff some element is a non-empty string. |
| `Mixins.JoinLength` | rest_framework_rules/mixins.py:50 | The length of `sep.join(xs)` is the summed length of the elements plus one separator for each consecutive pair. |
| `Mixins.JoinAt` | rest_framework_rules/mixins.py:50 | Contents of `sep.join(xs)`: each `xs[i]` sits at its offset (the earlier elements, each followed by `sep`). A `sep` follows every element but the last, and the last element ends the string. |
| `Mixins.JoinAppend` | rest_framework_rules/mixins.py:59 | Joining two non-empty runs equals joining each and putting one separator between them. |
| `Mixins.DenialMessage` | rest_framework_rules/mixins.py:48-50 | The message starts with `"MISSING: "`. The rest is the missing names joined by `", "`. A single missing name appears verbatim. |
| `Mixins.Decide` | rest_framework_rules/mixins.py:43-50 | Denies iff some resolved name is non-empty and not granted. On denial, the message names exactly the missing list. It never raises the configuration error. |
| `Mixins.NoneGrantedAllMissing` | rest_framework_rules/mixins.py:54-55 | When no resolved name is granted, the missing list is the whole resolved list, in order. |
| `Mixins.AllGrantedAllows` | rest_framework_rules/mixins.py:56 | When every resolved name is granted, the missing list is empty and the check passes. This includes an empty resolved list. |
| `Mixins.CheckPermissions` | rest_framework_rules/mixins.py:52-59 | Raises iff `permission_required` is `None`. Denies iff some declared non-empty name fails `has_perm(user, name)`. The message is `"MISSING: "` plus the failing names, joined. |
| `Mixins.CheckObjectPermissions` | rest_framework_rules/mixins.py:41-50 | Same as `CheckPermissions`, over the object-level list with its fallback and `has_perm(user, name, obj)`. It raises only when both declarations are `None`. |
| `Mixins.EmptyDeclarationAllows` | rest_framework_rules/mixins.py:22-27 | An explicitly empty collection resolves to no names. Both checks then pass for every user and object. |
| `Mixins.EmptyIdentifierIsNotEnforced` | rest_framework_rules/mixins.py:56-59 | A failing empty-string name alone does not deny. Next to a failing non-empty name it is still listed in the message. |
| `Mixins.CheckPermissionsIgnoresObjectDeclaration` | rest_framework_rules/mixins.py:52-55 | The plain check does not depend on `object_permission_required`. |
| `Scenarios.TestRules` | tests/testapp/rules.py:8-52 | The registered rules grant only anton and beatrix. Beatrix holds only the permissions registered with the `is_anton` or `is_beatrix` rule. |
| `Scenarios.CarlosMissesEverything` | tests/testsuite/test_views/test_mixin.py:53-60 | Carlos lacks every permission, so every resolved list is missing in full. |
| `Scenarios.ImproperlyConfiguredRaises` | tests/testsuite/test_views/test_mixin.py:62-64 | A view with no declaration raises the configuration error for every user, at both levels. |
| `Mixins.DeniedNaming` | rest_framework_rules/mixins.py:56-59 | One missing non-empty name gives the message `"MISSING: "` followed by that name. |
| `Scenarios.SinglePermissionScenarios` | tests/testsuite/test_views/test_mixin.py:17-33 | `SinglePermissionView` lets anton in. It denies beatrix, naming the permission. |
| `Scenarios.MultiplePermissionsAnton` | tests/testsuite/test_views/test_mixin.py:35-42 | `MultiplePermissionsView` lets anton in. |
| `Scenarios.MultiplePermissionsBeatrix` | tests/testsuite/test_views/test_mixin.py:44-51 | Beatrix holds only the second permission and is denied, naming only the first. |
| `Scenarios.MultiplePermissionsCarlos` | tests/testsuite/test_views/test_mixin.py:53-60 | Carlos is denied, naming both permissions in declared order, separated by `", "`. |
| `Scenarios.FallbackScenario` | tests/testsuite/test_views/test_mixin.py:72-76 | With no object-level declaration, object-level resolution equals plain resolution. |
| `Scenarios.ObjectPermissionAnton` | tests/testsuite/test_views/test_mixin.py:87-94 | `MultiplePermissionsGenericView` grants anton both object permissions. |
| `Scenarios.ObjectPermissionBeatrix` | tests/testsuite/test_views/test_mixin.py:96-105 | Beatrix is denied on the object, naming only the first object permission. |
| `Scenarios.ObjectPermissionCarlos` | tests/testsuite/test_views/test_mixin.py:107-116 | Carlos is denied on the object, naming both object permissions. |
| `Scenarios.SinglePermissionGenericAnton` | tests/testsuite/test_views/test_mixin.py:78-85 | `SinglePermissionGenericView` lets anton pass both the plain and the object check. |
| `Scenarios.ImproperlyConfiguredViewSetRaises` | tests/testsuite/test_viewsets/test_mixin.py:59-61 | The viewset with no declaration raises the configuration error for every user, at both levels. |
| `Scenarios.SinglePermissionViewSetScenarios` | tests/testsuite/test_viewsets/test_mixin.py:14-30 | `SinglePermissionViewSet` lets anton in. It denies beatrix, naming the permission. |
| `Scenarios.MultiplePermissionsViewSetScenarios` | tests/testsuite/test_viewsets/test_mixin.py:32-57 | `MultiplePermissionsViewSet` lets anton in. It denies beatrix naming only the first permission, and carlos naming both in order. |
| `Scenarios.ViewSetFallbackScenario` | tests/testsuite/test_viewsets/test_mixin.py:69-73 | With no object-level declaration, the viewset's object-level resolution equals its plain resolution. |
| `Scenarios.SinglePermissionGenericViewSetAnton` | tests/testsuite/test_viewsets/test_mixin.py:75-91 | `SinglePermissionGenericViewSet` lets anton pass both the plain and the object check. |
| `Scenarios.UnregisteredObjectPermissionsDenyEveryone` | tests/testapp/viewsets.py:107-112 | No rule registers the two object permissions of `MultiplePermissionsGenericViewSet`. So every user, anton included, is denied on the object, and both names are listed. |

## Left out

- The text of the `ImproperlyConfigured` message is left out. Only the class name it is formatted with is kept.
- Overriding `get_permission_required` in a subclass is left out. The model covers the mixin's own methods.
- Collections whose iteration order is not fixed, such as a `set`, are left out. Every collection is modelled as an ordered sequence.
- Non-string elements in a declared collection are left out. Every identifier is modelled as a string.
- The rule engine, Django's `has_perm` and DRF's `permission_denied` are left out. They are a parameter and a result value.
- The HTTP 403 response and the request object are left out. The user is passed directly.
- The order in which DRF calls the two checks around `get_object` is left out. It belongs to the framework.
- The per-operation `permission_required` decorator and its `fn=` object locator are left out. `rest_framework_rules/decorators.py` is not part of this model.
- Route-level `permission_required=` and `object_permission_required=` arguments on `list_route`/`detail_route` are left out. DRF's routing handles them.
- Failures raised by `has_perm` itself are left out. It is a total predicate here.
- Scenarios.TestRules: permission names that were never registered are granted to nobody. No other authentication backend is modelled.
