/**
 * The access rules of core/permissions.py. A user is represented by the
 * names of the auth groups they belong to (group names are unique in the
 * auth schema); the `Service` table is a sequence of rows.
 */
module Permissions {
  import opened Common

  /** One `Service` row: the Django app it guards and the groups allowed into it. */
  datatype Service = Service(name: string, djangoAppName: string, allowedGroups: set<string>)

  /** The three permission classes. */
  datatype PermissionClass = IsUpkPermission | IsNotUpkPermission | AppPermission

  /** The exceptions `Service.objects.get(...)` raises. */
  datatype ServiceLookupError = ServiceDoesNotExist | MultipleServicesReturned

  const UpkGroup: string := "УПК"
  const ExternalDepartmentGroup: string := "Сторонний отдел"

  /** `request.user.groups.filter(name=groupName)`, as the set of matching group names. */
  function GroupsNamed(userGroups: set<string>, groupName: string): (r: set<string>)
    ensures r <= userGroups
    ensures |r| > 0 <==> groupName in userGroups
  {
    var r := set g | g in userGroups && g == groupName;
    assert groupName in userGroups ==> groupName in r;
    r
  }

  /** The services whose `django_app_name` is `app`, in table order. */
  function ServicesNamed(services: seq<Service>, app: string): (r: seq<Service>)
    ensures forall s :: s in r <==> s in services && s.djangoAppName == app
  {
    if services == [] then []
    else (if services[0].djangoAppName == app then [services[0]] else []) + ServicesNamed(services[1..], app)
  }

  /** `Service.objects.get(django_app_name=app)` */
  function ServiceFor(services: seq<Service>, app: string): (r: Result<Service, ServiceLookupError>)
    ensures r.Ok? ==> r.value in services && r.value.djangoAppName == app
    ensures r == Err(ServiceDoesNotExist) <==> forall s :: s in services ==> s.djangoAppName != app
    ensures r.Ok? <==> |ServicesNamed(services, app)| == 1
    ensures r == Err(MultipleServicesReturned) <==> |ServicesNamed(services, app)| > 1
  {
    var m := ServicesNamed(services, app);
    if |m| == 0 then Err(ServiceDoesNotExist)
    else if |m| > 1 then assert m[0] in m; Err(MultipleServicesReturned)
    else Ok(m[0])
  }

  /** The Django app a view belongs to: `view.__module__.split('.')[0]`. */
  function AppName(viewModule: string): (r: string)
    ensures |r| <= |viewModule| && r == viewModule[..|r|]
    ensures '.' !in r
    ensures |r| < |viewModule| ==> viewModule[|r|] == '.'
  {
    FirstSegment(viewModule, '.')
  }

  /** A view defined in `<app>.<rest>` is judged by the service of `<app>`. */
  lemma {:induction false} AppNameOfModule(app: string, rest: string)
    requires '.' !in app
    ensures AppName(app + "." + rest) == app
    decreases |app|
  {
    if app != [] {
      assert (app + "." + rest)[1..] == app[1..] + "." + rest;
      assert '.' !in app[1..] by {
        assert forall x :: x in app[1..] ==> x in app;
      }
      AppNameOfModule(app[1..], rest);
      assert [app[0]] + app[1..] == app;
    }
  }

  /**
   * `has_permission`. IsUpkPermission asks whether the user has a group named
   * 'УПК'; IsNotUpkPermission returns the filtered group set, judged by its
   * truthiness; AppPermission looks up the service of the view's app (the
   * lookup raises when there is no such service or more than one) and grants
   * access when one of the user's groups is among its allowed groups.
   */
  function HasPermission(p: PermissionClass, userGroups: set<string>, viewModule: string, services: seq<Service>)
    : (r: Result<bool, ServiceLookupError>)
    ensures p == IsUpkPermission ==> r == Ok(UpkGroup in userGroups)
    ensures p == IsNotUpkPermission ==> r == Ok(ExternalDepartmentGroup in userGroups)
    ensures p == AppPermission ==>
              match ServiceFor(services, AppName(viewModule))
              case Err(e) => r == Err(e)
              case Ok(service) => r.Ok? && (r.value <==> exists g :: g in userGroups && g in service.allowedGroups)
    ensures p == AppPermission && (forall s :: s in services ==> s.djangoAppName != AppName(viewModule)) ==>
              r == Err(ServiceDoesNotExist)
  {
    match p
    case IsUpkPermission => Ok(|GroupsNamed(userGroups, UpkGroup)| > 0)
    case IsNotUpkPermission => Ok(|GroupsNamed(userGroups, ExternalDepartmentGroup)| != 0)
    case AppPermission =>
      match ServiceFor(services, AppName(viewModule))
      case Err(e) => Err(e)
      case Ok(service) =>
        var matching := set g | g in service.allowedGroups && g in userGroups;
        assert forall g :: g in userGroups && g in service.allowedGroups ==> g in matching;
        Ok(matching != {})
  }

  /** `has_object_permission`: every class allows every object. */
  function HasObjectPermission(p: PermissionClass): (r: bool)
    ensures r
  {
    true
  }
}
