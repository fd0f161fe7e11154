/**
 * `PermissionRequiredMixin` (rest_framework_rules/mixins.py): resolving a view's
 * declared permission requirements into identifiers, and enforcing them against
 * an external `has_perm` predicate before the view runs.
 */
module Mixins {
  import opened Wrappers

  /** A declaration as the mixin accepts it: a bare `str`, or any other collection of identifiers. */
  datatype Decl = Single(id: string) | Many(ids: seq<string>)

  /**
   * The part of a view class the mixin reads: its class name (used in the
   * configuration error) and the two class attributes, both `None` by default.
   */
  datatype View = View(
    className: string,
    permissionRequired: Option<Decl>,
    objectPermissionRequired: Option<Decl>)

  /** The result of resolving a declaration: the identifiers, or `ImproperlyConfigured` raised. */
  datatype Resolution = Required(ids: seq<string>) | NotConfigured(className: string)

  /**
   * The result of a check: it returns normally, it calls `permission_denied`
   * with a message, or the `ImproperlyConfigured` of resolution escapes it.
   */
  datatype Outcome = Allowed | Denied(message: string) | Misconfigured(className: string)

  const MissingPrefix: string := "MISSING: "
  const Separator: string := ", "

  /** The `isinstance(..., str)` test: a single identifier becomes a one-element tuple. */
  function Normalise(d: Decl): seq<string>
  {
    match d
    case Single(id) => [id]
    case Many(ids) => ids
  }

  /**
   * `get_permission_required`: fails exactly when `permission_required` is `None`,
   * otherwise yields the declared identifiers, in declared order.
   */
  function GetPermissionRequired(v: View): (r: Resolution)
    ensures r.NotConfigured? <==> v.permissionRequired.None?
    ensures r.NotConfigured? ==> r.className == v.className
    ensures v.permissionRequired.Some? && v.permissionRequired.value.Single? ==>
              r == Required([v.permissionRequired.value.id])
    ensures v.permissionRequired.Some? && v.permissionRequired.value.Many? ==>
              r == Required(v.permissionRequired.value.ids)
  {
    match v.permissionRequired
    case None => NotConfigured(v.className)
    case Some(d) => Required(Normalise(d))
  }

  /**
   * `get_object_permission_required`: falls back to `get_permission_required` when
   * `object_permission_required` is `None`; otherwise it resolves that attribute alone.
   */
  function GetObjectPermissionRequired(v: View): (r: Resolution)
    ensures v.objectPermissionRequired.None? ==> r == GetPermissionRequired(v)
    ensures v.objectPermissionRequired.Some? ==> r == Required(Normalise(v.objectPermissionRequired.value))
    ensures r.NotConfigured? <==> v.objectPermissionRequired.None? && v.permissionRequired.None?
  {
    match v.objectPermissionRequired
    case None => GetPermissionRequired(v)
    case Some(d) => Required(Normalise(d))
  }

  /**
   * The list comprehension `[perm for perm in perms if not has_perm(perm)]`:
   * exactly the failing identifiers, drawn from `perms`.
   */
  function Missing<U, O>(perms: seq<string>, hasPerm: (U, string, Option<O>) -> bool, user: U, obj: Option<O>)
    : (missing: seq<string>)
    ensures |missing| <= |perms|
    ensures forall i :: 0 <= i < |missing| ==> missing[i] in perms && !hasPerm(user, missing[i], obj)
    ensures forall i :: 0 <= i < |perms| && !hasPerm(user, perms[i], obj) ==> perms[i] in missing
  {
    if perms == [] then []
    else if hasPerm(user, perms[0], obj) then Missing(perms[1..], hasPerm, user, obj)
    else [perms[0]] + Missing(perms[1..], hasPerm, user, obj)
  }

  /** `sub` can be obtained from `s` by deleting elements, keeping the rest in order. */
  ghost predicate IsSubsequence(sub: seq<string>, s: seq<string>)
    decreases |s|
  {
    if sub == [] then true
    else if s == [] then false
    else (sub[0] == s[0] && IsSubsequence(sub[1..], s[1..])) || IsSubsequence(sub, s[1..])
  }

  /** The missing list keeps the resolved order: it is a subsequence of the identifiers. */
  lemma {:induction false} MissingIsSubsequence<U, O>(
    perms: seq<string>, hasPerm: (U, string, Option<O>) -> bool, user: U, obj: Option<O>)
    ensures IsSubsequence(Missing(perms, hasPerm, user, obj), perms)
  {
    if perms != [] {
      MissingIsSubsequence(perms[1..], hasPerm, user, obj);
      var rest := Missing(perms[1..], hasPerm, user, obj);
      if !hasPerm(user, perms[0], obj) {
        assert Missing(perms, hasPerm, user, obj) == [perms[0]] + rest;
        assert ([perms[0]] + rest)[1..] == rest;
      }
    }
  }

  /**
   * The filter works identifier by identifier: the missing list of a concatenation
   * is the concatenation of the missing lists, so its order is the declared order.
   */
  lemma {:induction false} MissingDistributes<U, O>(
    a: seq<string>, b: seq<string>, hasPerm: (U, string, Option<O>) -> bool, user: U, obj: Option<O>)
    ensures Missing(a + b, hasPerm, user, obj) == Missing(a, hasPerm, user, obj) + Missing(b, hasPerm, user, obj)
  {
    if a != [] {
      assert (a + b)[1..] == a[1..] + b;
      MissingDistributes(a[1..], b, hasPerm, user, obj);
    } else {
      assert a + b == b;
    }
  }

  /** A single identifier is missing exactly when it is not granted. */
  lemma MissingSingleton<U, O>(p: string, hasPerm: (U, string, Option<O>) -> bool, user: U, obj: Option<O>)
    ensures Missing([p], hasPerm, user, obj) == if hasPerm(user, p, obj) then [] else [p]
  {
  }

  /** Python's `any(xs)` over strings: true iff some element is a non-empty string. */
  function AnyTruthy(xs: seq<string>): (b: bool)
    ensures b <==> exists i :: 0 <= i < |xs| && xs[i] != ""
  {
    if xs == [] then false
    else if xs[0] != "" then true
    else
      var b := AnyTruthy(xs[1..]);
      assert b ==> exists i :: 0 <= i < |xs| && xs[i] != "" by {
        if b {
          var j :| 0 <= j < |xs[1..]| && xs[1..][j] != "";
          assert xs[j + 1] != "";
        }
      }
      b
  }

  /** Python's `sep.join(xs)`. */
  function Join(sep: string, xs: seq<string>): string
  {
    if xs == [] then ""
    else if |xs| == 1 then xs[0]
    else xs[0] + sep + Join(sep, xs[1..])
  }

  /** The summed length of the strings in `xs`. */
  function TotalLength(xs: seq<string>): nat
  {
    if xs == [] then 0 else |xs[0]| + TotalLength(xs[1..])
  }

  /** Joining puts exactly one separator between consecutive elements and nothing else. */
  lemma {:induction false} JoinLength(sep: string, xs: seq<string>)
    requires xs != []
    ensures |Join(sep, xs)| == TotalLength(xs) + |sep| * (|xs| - 1)
  {
    if |xs| > 1 {
      JoinLength(sep, xs[1..]);
    }
  }

  /** Where `xs[i]` starts in `Join(sep, xs)`: every earlier element and its separator come first. */
  function Offset(sep: string, xs: seq<string>, i: nat): nat
    requires i <= |xs|
  {
    if i == 0 then 0 else |xs[0]| + |sep| + Offset(sep, xs[1..], i - 1)
  }

  /** A slice past a prefix is the matching slice of what follows the prefix. */
  lemma SliceAfter(p: string, q: string, lo: nat, hi: nat)
    requires lo <= hi <= |q|
    ensures (p + q)[|p| + lo .. |p| + hi] == q[lo..hi]
  {
  }

  /**
   * The contents of `sep.join(xs)`: each element sits at its offset, a separator
   * follows every element but the last, and the last element ends the string.
   */
  lemma {:induction false} JoinAt(sep: string, xs: seq<string>, i: nat)
    requires i < |xs|
    ensures Offset(sep, xs, i) + |xs[i]| <= |Join(sep, xs)|
    ensures Join(sep, xs)[Offset(sep, xs, i) .. Offset(sep, xs, i) + |xs[i]|] == xs[i]
    ensures i < |xs| - 1 ==>
              (Offset(sep, xs, i) + |xs[i]| + |sep| <= |Join(sep, xs)| &&
               Join(sep, xs)[Offset(sep, xs, i) + |xs[i]| .. Offset(sep, xs, i) + |xs[i]| + |sep|] == sep)
    ensures i == |xs| - 1 ==> Offset(sep, xs, i) + |xs[i]| == |Join(sep, xs)|
  {
    if |xs| > 1 {
      var head := xs[0] + sep;
      var rest := Join(sep, xs[1..]);
      assert Join(sep, xs) == head + rest;
      if i == 0 {
        assert (head + rest)[..|xs[0]|] == xs[0];
        assert (head + rest)[|xs[0]| .. |xs[0]| + |sep|] == sep;
      } else {
        JoinAt(sep, xs[1..], i - 1);
        var off := Offset(sep, xs[1..], i - 1);
        assert xs[1..][i - 1] == xs[i];
        SliceAfter(head, rest, off, off + |xs[i]|);
        if i < |xs| - 1 {
          SliceAfter(head, rest, off + |xs[i]|, off + |xs[i]| + |sep|);
        }
      }
    }
  }

  /** Joining two non-empty runs is joining each and putting one separator between them. */
  lemma {:induction false} JoinAppend(sep: string, a: seq<string>, b: seq<string>)
    requires a != [] && b != []
    ensures Join(sep, a + b) == Join(sep, a) + sep + Join(sep, b)
  {
    if |a| == 1 {
      assert (a + b)[1..] == b;
    } else {
      assert (a + b)[1..] == a[1..] + b;
      JoinAppend(sep, a[1..], b);
    }
  }

  /** The diagnostic handed to `permission_denied`: "MISSING: " then the identifiers joined by ", ". */
  function DenialMessage(missing: seq<string>): (msg: string)
    ensures |msg| >= |MissingPrefix| && msg[..|MissingPrefix|] == MissingPrefix
    ensures msg[|MissingPrefix|..] == Join(Separator, missing)
    ensures |missing| == 1 ==> msg == MissingPrefix + missing[0]
  {
    MissingPrefix + Join(Separator, missing)
  }

  /**
   * The shared tail of both checks: collect the failing identifiers and deny,
   * naming them, iff `any` of them is a non-empty string.
   */
  function Decide<U, O>(perms: seq<string>, hasPerm: (U, string, Option<O>) -> bool, user: U, obj: Option<O>)
    : (r: Outcome)
    ensures !r.Misconfigured?
    ensures r.Denied? <==> exists i :: 0 <= i < |perms| && perms[i] != "" && !hasPerm(user, perms[i], obj)
    ensures r.Denied? ==> r.message == DenialMessage(Missing(perms, hasPerm, user, obj))
  {
    var missing := Missing(perms, hasPerm, user, obj);
    if AnyTruthy(missing) then Denied(DenialMessage(missing)) else Allowed
  }

  /** A denial that names a single non-empty identifier carries "MISSING: " and that identifier. */
  lemma DeniedNaming<U, O>(
    perms: seq<string>, hasPerm: (U, string, Option<O>) -> bool, user: U, obj: Option<O>, id: string)
    requires Missing(perms, hasPerm, user, obj) == [id] && id != ""
    ensures Decide(perms, hasPerm, user, obj) == Denied(MissingPrefix + id)
  {
  }

  /** Every identifier granted (in particular, none resolved) means the check passes. */
  lemma {:induction false} AllGrantedAllows<U, O>(
    perms: seq<string>, hasPerm: (U, string, Option<O>) -> bool, user: U, obj: Option<O>)
    requires forall i :: 0 <= i < |perms| ==> hasPerm(user, perms[i], obj)
    ensures Missing(perms, hasPerm, user, obj) == []
    ensures Decide(perms, hasPerm, user, obj) == Allowed
  {
    if perms != [] {
      AllGrantedAllows(perms[1..], hasPerm, user, obj);
    }
  }

  /** Every identifier refused means every identifier is missing, in declared order. */
  lemma {:induction false} NoneGrantedAllMissing<U, O>(
    perms: seq<string>, hasPerm: (U, string, Option<O>) -> bool, user: U, obj: Option<O>)
    requires forall i :: 0 <= i < |perms| ==> !hasPerm(user, perms[i], obj)
    ensures Missing(perms, hasPerm, user, obj) == perms
  {
    if perms != [] {
      NoneGrantedAllMissing(perms[1..], hasPerm, user, obj);
    }
  }

  /**
   * `check_permissions`: resolve `permission_required` and ask `has_perm(user, perm)`
   * (no object) of each identifier.
   */
  function CheckPermissions<U, O>(v: View, user: U, hasPerm: (U, string, Option<O>) -> bool): (r: Outcome)
    ensures r.Misconfigured? <==> v.permissionRequired.None?
    ensures r.Misconfigured? ==> r.className == v.className
    ensures r.Denied? <==> (v.permissionRequired.Some? &&
              var ids := Normalise(v.permissionRequired.value);
              exists i :: 0 <= i < |ids| && ids[i] != "" && !hasPerm(user, ids[i], None))
    ensures r.Denied? ==>
              r.message == DenialMessage(Missing(Normalise(v.permissionRequired.value), hasPerm, user, None))
  {
    match GetPermissionRequired(v)
    case NotConfigured(name) => Misconfigured(name)
    case Required(ids) => Decide(ids, hasPerm, user, None)
  }

  /**
   * `check_object_permissions`: resolve the object-level requirement (with its
   * fallback) and ask `has_perm(user, perm, obj)` of each identifier.
   */
  function CheckObjectPermissions<U, O>(v: View, user: U, obj: O, hasPerm: (U, string, Option<O>) -> bool): (r: Outcome)
    ensures r.Misconfigured? <==> v.objectPermissionRequired.None? && v.permissionRequired.None?
    ensures r.Misconfigured? ==> r.className == v.className
    ensures r.Denied? <==> (GetObjectPermissionRequired(v).Required? &&
              var ids := GetObjectPermissionRequired(v).ids;
              exists i :: 0 <= i < |ids| && ids[i] != "" && !hasPerm(user, ids[i], Some(obj)))
    ensures r.Denied? ==>
              r.message == DenialMessage(Missing(GetObjectPermissionRequired(v).ids, hasPerm, user, Some(obj)))
  {
    match GetObjectPermissionRequired(v)
    case NotConfigured(name) => Misconfigured(name)
    case Required(ids) => Decide(ids, hasPerm, user, Some(obj))
  }

  /**
   * An explicitly empty collection is not rejected: it resolves to no identifiers
   * and both checks pass for every user and object.
   */
  lemma EmptyDeclarationAllows<U, O>(v: View, user: U, obj: O, hasPerm: (U, string, Option<O>) -> bool)
    requires v.permissionRequired == Some(Many([]))
    requires v.objectPermissionRequired.None? || v.objectPermissionRequired == Some(Many([]))
    ensures GetPermissionRequired(v) == Required([])
    ensures CheckPermissions(v, user, hasPerm) == Allowed
    ensures CheckObjectPermissions(v, user, obj, hasPerm) == Allowed
  {
  }

  /**
   * The deny test is `any(missing)`: a failing identifier that is the empty string
   * does not by itself deny, while a non-empty one next to it is reported after it.
   */
  lemma EmptyIdentifierIsNotEnforced<U, O>(user: U, hasPerm: (U, string, Option<O>) -> bool)
    requires forall p :: !hasPerm(user, p, None)
    ensures CheckPermissions(View("V", Some(Single("")), None), user, hasPerm) == Allowed
    ensures CheckPermissions(View("V", Some(Many(["", "app.x"])), None), user, hasPerm) == Denied("MISSING: , app.x")
  {
    assert Missing([""], hasPerm, user, None) == [""];
    assert Missing(["", "app.x"], hasPerm, user, None) == ["", "app.x"];
  }

  /** `check_permissions` reads only `permission_required`: the object-level declaration never affects it. */
  lemma CheckPermissionsIgnoresObjectDeclaration<U, O>(v: View, d: Option<Decl>, user: U, hasPerm: (U, string, Option<O>) -> bool)
    ensures CheckPermissions(v.(objectPermissionRequired := d), user, hasPerm) == CheckPermissions(v, user, hasPerm)
  {
  }
}
