/**
 * The popup's root component (src/component/layout.component.ts): a three
 * state lifecycle that starts in Loading and settles once, on the outcome of
 * the session probe, in Tasks or LoginRequired.
 */
module Layout {
  import opened Wrappers
  import opened TeamWork

  datatype State = Loading | LoginRequired | Tasks {

    /** The string value of the state, the key the template switches on. */
    function Name(): string {
      match this
      case Loading => "loading"
      case LoginRequired => "login-required"
      case Tasks => "tasks"
    }
  }

  /** The root component; it holds the one service instance the popup shares. */
  class LayoutComponent {
    var state: State
    const service: TeamWorkService

    constructor(service: TeamWorkService)
      ensures state == Loading && this.service == service
    {
      state := Loading;
      this.service := service;
    }

    /**
     * created: primes the stored domain first, then probes the session, and
     * assigns the state once from the probe's result.
     */
    method Created(tabUrl: Option<string>, statusAt: Url -> Reply<Person>)
      modifies this`state, service`storedDomain
      ensures service.storedDomain
              == StoreAfterInit(tabUrl, old(service.storedDomain), service.hostnameOf)
      ensures state != Loading
      ensures state == Tasks <==> GetPeople(old(service.Domain(tabUrl)), statusAt).person.Some?
      ensures state == LoginRequired <==> GetPeople(old(service.Domain(tabUrl)), statusAt).person.None?
    {
      service.Init(tabUrl);
      var authenticated := service.IsAuthenticated(tabUrl, statusAt);
      state := if authenticated then Tasks else LoginRequired;
    }
  }

}
