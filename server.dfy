/**
 * The request handlers as they run: a document store and a session whose
 * fields the handlers update step by step. Each handler is proved to compute
 * exactly the function that specifies it in Intake, Admin or Gate.
 */
module Server {
  import opened Entities
  import Intake
  import Admin
  import Gate

  /** The session of one client connection. */
  class Session {
    var name: Option<string>
    var userId: Option<Id>

    function State(): Gate.SessionState
      reads this
    {
      Gate.SessionState(name, userId)
    }

    constructor ()
      ensures State() == Gate.Anonymous
    {
      name := None;
      userId := None;
    }

    /** `POST /login`. */
    method Login(users: seq<User>, email: string, password: string) returns (out: Outcome)
      modifies this
      ensures (State(), out) == Gate.Login(old(State()), users, email, password)
    {
      var found := Gate.FindUser(users, email, password);
      if found.None? {
        out := Redirect("/sign");
      } else if name.None? {
        name := Some(Gate.SessionName);
        userId := found;
        out := Redirect("/");
      } else {
        out := Redirect("/");
      }
    }

    /** `GET /logout`: destroying the session clears both fields. */
    method Logout() returns (out: Outcome)
      modifies this
      ensures (State(), out) == Gate.Logout(old(State()))
    {
      if name.Some? {
        name := None;
        userId := None;
      }
      out := Redirect("/");
    }

    /** `GET /sign`. */
    method Sign() returns (out: Outcome)
      ensures out == Gate.SignPageFor(State())
    {
      if name.None? {
        out := SignPage;
      } else {
        out := Redirect("/");
      }
    }

    /** `GET /`: the reports owned by the bound id. */
    method Home(store: Store) returns (out: Outcome)
      ensures out == Gate.Home(State(), store.reports, store.locations, store.categories)
    {
      var mine := Gate.Owned(store.reports, userId);
      out := HomePage(name, Populate(mine, store.locations, store.categories));
    }
  }

  /** The document store (collections in insertion order) and the image directory. */
  class Store {
    var locations: seq<Location>
    var categories: seq<Category>
    var reports: seq<Report>
    var users: seq<User>
    var images: map<string, Bytes>

    function State(): Intake.Db
      reads this
    {
      Intake.Db(locations, categories, reports, users, images)
    }

    ghost predicate Valid()
      reads this
    {
      Intake.Valid(State())
    }

    constructor ()
      ensures Valid() && State() == Intake.Db([], [], [], [], map[])
    {
      locations, categories, reports, users := [], [], [], [];
      images := map[];
    }

    /** `Location.findOne` on the whole address, then `save` when nothing matched. */
    method FindOrCreateLocation(key: Location, lookupFails: bool, saveFails: bool) returns (id: Option<Id>)
      modifies this`locations
      ensures Intake.Resolution(locations, id) == Intake.FindOrCreate(old(locations), key, lookupFails, saveFails)
    {
      if lookupFails {
        return None;
      }
      id := Intake.IndexOf(locations, key);
      if id.None? {
        if saveFails {
          return None;
        }
        locations := locations + [key];
        id := Some(|locations| - 1);
      }
    }

    /** `Category.findOne` on the name, then `save` when nothing matched. */
    method FindOrCreateCategory(key: Category, lookupFails: bool, saveFails: bool) returns (id: Option<Id>)
      modifies this`categories
      ensures Intake.Resolution(categories, id) == Intake.FindOrCreate(old(categories), key, lookupFails, saveFails)
    {
      if lookupFails {
        return None;
      }
      id := Intake.IndexOf(categories, key);
      if id.None? {
        if saveFails {
          return None;
        }
        categories := categories + [key];
        id := Some(|categories| - 1);
      }
    }

    /** `POST /report`, run by the client of `session`; `failAt` is the first
        store or file-system step that fails, if any. */
    method SubmitReport(session: Session, form: Intake.ReportForm, failAt: Option<Intake.Step>)
      returns (out: Outcome)
      requires Valid()
      modifies this
      ensures Valid()
      ensures (State(), out) == Intake.Submit(old(State()), session.userId, form, failAt)
    {
      Intake.SubmitPreservesValid(State(), session.userId, form, failAt);
      var activeUser := session.userId;
      var urgency := Intake.UrgencyOf(form.urgency);
      if form.files.NoFiles? {
        return ServerError;
      }
      if form.files.image.None? {
        return Status(400);
      }
      var image := form.files.image.value;
      if !Intake.IsImageType(image.mimetype) {
        return Status(400);
      }
      var path := Intake.ImagePath(image.name);
      if path !in images {
        if failAt == Some(Intake.ImageWrite) {
          return ServerError;
        }
        images := images[path := image.data];
      }
      var location := FindOrCreateLocation(Intake.LocationOf(form),
                                           failAt == Some(Intake.LocationLookup), failAt == Some(Intake.LocationSave));
      if location.None? {
        return ServerError;
      }
      var category := FindOrCreateCategory(Category(form.category),
                                           failAt == Some(Intake.CategoryLookup), failAt == Some(Intake.CategorySave));
      if category.None? {
        return ServerError;
      }
      if failAt == Some(Intake.ReportSave) {
        return ServerError;
      }
      reports := reports + [Report(form.description, activeUser, location.value, category.value,
                                   Intake.Pending, image.name, urgency, 0)];
      out := Redirect("/");
    }

    /** `POST /signup`: the new user is appended with no duplicate check. */
    method SignUp(u: User) returns (out: Outcome)
      requires Valid()
      modifies this`users
      ensures Valid()
      ensures users == old(users) + [u]
      ensures out == Redirect("/")
    {
      users := users + [u];
      out := Redirect("/");
    }

    /** `GET /admin`. */
    method ListAdmin(q: Admin.AdminQuery, storeFails: bool) returns (out: Outcome)
      ensures out == Admin.ListReports(reports, locations, categories, q, storeFails)
    {
      var page := Admin.OrDefault(q.page, Admin.DefaultPage);
      var limit := Admin.OrDefault(q.limit, Admin.DefaultLimit);
      var totalPages := Admin.CeilDiv(|reports|, limit);
      var skip := Admin.Skip(page, limit);
      if storeFails || skip < 0 {
        return ServerError;
      }
      var items := Admin.Window(Admin.Selected(reports, q), skip, Admin.Abs(limit));
      out := AdminPage(Populate(items, locations, categories), totalPages, page);
    }
  }
}
