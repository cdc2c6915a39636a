/** The service handling one request after another, as its routes hand them in: whatever the caches hold and lose,
    the answers make up a run of LinkRuns. */
module Router {
  import opened LinkStore
  import opened Text
  import opened LinkBook
  import opened LinkRuns
  import opened Shortener

  datatype Request =
    | Convert(url: string, env: Surroundings)
    | Create(longUrl: string, env: Surroundings)
    | Show(code: string, now: Time, filterFails: bool)
    | Update(code: string, newUrl: string, expireAt: string, fails: bool)
    | Evict(ids: set<nat>, md5s: set<string>, surls: set<string>)

  datatype Answer = Converted(c: ConvertReply) | CreateAnswered(n: CreateReply) | Shown(s: ShowReply) | UpdateAnswered(u: UpdateReply) | Done

  /** The event that a request and its answer are. */
  ghost predicate Records(domain: string, q: Request, a: Answer, e: Event) {
    match q
    case Convert(url, env) => e.Conversion? && e.url == url && e.env == env && a == Converted(e.answer)
    case Create(url, env) => e.Conversion? && e.url == url && e.env == env && a == CreateAnswered(CreateAnswer(domain, e.answer))
    case Show(code, now, filterFails) => e.Showing? && e.code == code && e.now == now && e.filterFails == filterFails && a == Shown(e.shown)
    case Update(code, url, expireAt, fails) =>
      e.Updating? && e.code == code && e.longUrl == url && e.expireAt == expireAt && e.fails == fails && a == UpdateAnswered(e.updated)
    case Evict(_, _, _) => e == Eviction(q.md5s) && a == Done
  }

  ghost function Extended(run: Run, e: Event, b: Book): Run {
    run.(books := run.books + [b], events := run.events + [e])
  }

  /** The run so far is a run of this service, up to now. */
  ghost predicate Logs(service: Service, run: Run)
    reads service, service.model, service.sequence, service.filter
  {
    && run.cfg == service.cfg && run.locations == service.filter.locations
    && run.Valid() && run.books[|run.events|] == service.View()
  }

  lemma RunGrows(run: Run, e: Event, b: Book)
    requires run.Valid() && Step(run.cfg, run.locations, run.books[|run.events|], e, b)
    ensures Extended(run, e, b).Valid()
  {
    var longer := Extended(run, e, b);
    forall i | 0 <= i < |longer.events|
      ensures longer.StepAt(i)
    {
      if i < |run.events| {
        assert run.StepAt(i);
      }
    }
  }

  /** Any service may be watched from now on. */
  lemma WatchedFromNow(service: Service)
    requires service.Valid()
    ensures Logs(service, Run(service.cfg, service.filter.locations, [service.View()], []))
  {
    service.ViewIsOk();
  }

  /** A new service has the empty run. */
  method Start(cfg: Config, locations: string -> set<nat>) returns (service: Service, ghost run: Run)
    requires cfg.Valid()
    ensures service.Valid() && Logs(service, run) && run == Run(cfg, locations, [Book(0, map[], 1, {}, {})], [])
    ensures fresh(service) && fresh(service.model) && fresh(service.sequence) && fresh(service.filter)
  {
    service := new Service(cfg, locations);
    run := Run(cfg, locations, [service.View()], []);
    WatchedFromNow(service);
  }

  /** Each request extends the run by one event; a Create that is refused for its blank URL leaves no trace. */
  method Handle(service: Service, q: Request, ghost run: Run) returns (a: Answer, ghost run': Run)
    requires service.Valid() && Logs(service, run)
    requires q.Convert? ==> service.Returns(q.url, q.env)
    requires q.Create? && !Blank(q.longUrl) ==> service.Returns(q.longUrl, q.env)
    modifies service.model, service.sequence, service.filter
    ensures service.Valid() && Logs(service, run')
    ensures if q.Create? && Blank(q.longUrl) then a == CreateAnswered(CreateError) && run' == run
            else exists e :: Records(service.cfg.domain, q, a, e) && run' == Extended(run, e, service.View())
  {
    ghost var e := Eviction({});
    match q {
      case Convert(url, env) =>
        var c;
        ghost var code, draws;
        c, code, draws := service.Convert(url, env);
        a, e := Converted(c), Conversion(url, env, code, draws, c);
      case Create(longUrl, env) =>
        var r;
        ghost var c, code, draws;
        r, c, code, draws := service.Create(longUrl, env);
        a := CreateAnswered(r);
        if Blank(longUrl) {
          run' := run;
          return;
        }
        e := Conversion(longUrl, env, code, draws, c);
      case Show(code, now, filterFails) =>
        var r := service.Show(code, now, filterFails);
        a, e := Shown(r), Showing(code, now, filterFails, r);
      case Update(code, newUrl, expireAt, fails) =>
        var r := service.Update(code, newUrl, expireAt, fails);
        a, e := UpdateAnswered(r), Updating(code, newUrl, expireAt, fails, r);
      case Evict(ids, md5s, surls) =>
        service.Evict(ids, md5s, surls);
        a, e := Done, Eviction(md5s);
    }
    run' := Extended(run, e, service.View());
    RunGrows(run, e, service.View());
    assert Records(service.cfg.domain, q, a, e);
  }
}
