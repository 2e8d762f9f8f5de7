/**
 * Report intake (`POST /report`): validate the uploaded image, map the
 * urgency index, place the image on disk at most once, find or create the
 * Location and the Category, and insert a Pending Report that references them.
 *
 * The handler is modelled here as a function from the store before the
 * request to the store after it and the answer; the imperative handler in
 * module Server is proved to compute exactly this. Store and file-system
 * failures are an input: `failAt` names the first step that fails, if any.
 */
module Intake {
  import opened Entities

  const UrgencyLevels: seq<string> := ["Low", "Medium", "High"]
  const ImageDir := "public/images/"
  const Pending := "Pending"

  /** One uploaded file: its original name, its MIME type and its content. */
  datatype Upload = Upload(name: string, mimetype: string, data: Bytes)

  /** The files of the multipart request: NoFiles when the request carried no
      files object at all, Files(None) when it carried one without `image`. */
  datatype Files = NoFiles | Files(image: Option<Upload>)

  datatype ReportForm = ReportForm(category: string, description: string, city: string,
                                   streetName: string, streetNumber: string, zipCode: string,
                                   urgency: int, files: Files)

  /** The store and file-system operations of a submission, in the order they run. */
  datatype Step = ImageWrite | LocationLookup | LocationSave | CategoryLookup | CategorySave | ReportSave

  /** The four collections and the image directory (path to content). */
  datatype Db = Db(locations: seq<Location>, categories: seq<Category>, reports: seq<Report>,
                   users: seq<User>, images: map<string, Bytes>)

  /** The result of a find-or-create: the collection afterwards and the
      position of the entity, or None when the lookup or the save failed. */
  datatype Resolution<T> = Resolution(entities: seq<T>, id: Option<Id>)

  predicate NoDuplicates<T(==)>(s: seq<T>)
  {
    forall i, j :: 0 <= i < j < |s| ==> s[i] != s[j]
  }

  /** The store invariants: one Location per address tuple, one Category per
      name, and every report refers to a stored Location and Category. */
  predicate Valid(db: Db)
  {
    && NoDuplicates(db.locations)
    && NoDuplicates(db.categories)
    && forall r :: r in db.reports ==> r.location < |db.locations| && r.category < |db.categories|
  }

  /** The urgency table lookup; an index outside the table gives JavaScript's undefined. */
  function UrgencyOf(index: int): (r: Option<string>)
    ensures r == Some("Low") <==> index == 0
    ensures r == Some("Medium") <==> index == 1
    ensures r == Some("High") <==> index == 2
    ensures r == None <==> index < 0 || 2 < index
  {
    if 0 <= index < |UrgencyLevels| then Some(UrgencyLevels[index]) else None
  }

  /** The `/^image/` test on the MIME type. */
  predicate IsImageType(mimetype: string)
  {
    "image" <= mimetype
  }

  /** The image path depends on the file name only. */
  function ImagePath(name: string): string
  {
    ImageDir + name
  }

  function IndexOf<T(==)>(s: seq<T>, key: T): (r: Option<Id>)
    ensures r.Some? ==> r.value < |s| && s[r.value] == key
    ensures r.None? <==> key !in s
  {
    FindFirst(s, x => x == key)
  }

  /** Find-or-create by exact equality of the whole key. */
  function FindOrCreate<T(==)>(s: seq<T>, key: T, lookupFails: bool, saveFails: bool): (r: Resolution<T>)
    ensures r.entities == s || r.entities == s + [key]
    ensures key in s ==> r.entities == s
    ensures r.id.Some? ==> r.id.value < |r.entities| && r.entities[r.id.value] == key
    ensures r.id.None? <==> lookupFails || (key !in s && saveFails)
    ensures r.id.None? ==> r.entities == s
  {
    if lookupFails then Resolution(s, None)
    else match IndexOf(s, key)
      case Some(i) => Resolution(s, Some(i))
      case None => if saveFails then Resolution(s, None) else Resolution(s + [key], Some(|s|))
  }

  /** Find-or-create is idempotent: resolving the same key again finds the
      entity the first call returned and adds nothing. */
  lemma FindOrCreateIdempotent<T>(s: seq<T>, key: T)
    ensures var first := FindOrCreate(s, key, false, false);
            FindOrCreate(first.entities, key, false, false) == first
  {
  }

  /** The upload checks: an image is present and its MIME type is an image type. */
  predicate Accepted(files: Files)
  {
    files.Files? && files.image.Some? && IsImageType(files.image.value.mimetype)
  }

  function LocationOf(form: ReportForm): Location
  {
    Location(form.city, form.streetName, form.streetNumber, form.zipCode)
  }

  /** Whether an accepted submission reaches `step` when every earlier step
      succeeds: the image is moved only when nothing is at its path, and a
      Location or Category is saved only when its lookup found nothing. */
  predicate Runs(db: Db, form: ReportForm, step: Step)
    requires Accepted(form.files)
  {
    && (step == ImageWrite ==> ImagePath(form.files.image.value.name) !in db.images)
    && (step == LocationSave ==> LocationOf(form) !in db.locations)
    && (step == CategorySave ==> Category(form.category) !in db.categories)
  }

  /** The submission handler: the store after the request and the answer. */
  function Submit(db: Db, activeUser: Option<Id>, form: ReportForm, failAt: Option<Step>): (r: (Db, Outcome))
    // the answers the handler can give, and when it rejects the upload
    ensures r.1 == Redirect("/") || r.1 == Status(400) || r.1 == ServerError
    ensures r.1 == Status(400) <==> form.files.Files? && !Accepted(form.files)
    ensures form.files.NoFiles? ==> r.1 == ServerError
    ensures r.1 == ServerError ==> form.files.NoFiles? || failAt.Some?
    ensures failAt.None? && Accepted(form.files) ==> r.1 == Redirect("/")
    ensures Accepted(form.files) && failAt.Some? ==> (r.1 == ServerError <==> Runs(db, form, failAt.value))
    // nothing is written before the upload is accepted
    ensures !Accepted(form.files) ==> r.0 == db
    // users are never touched
    ensures r.0.users == db.users
    // an existing image is never overwritten; at most the uploaded name is added
    ensures forall p :: p in db.images ==> p in r.0.images && r.0.images[p] == db.images[p]
    ensures forall p :: p in r.0.images && p !in db.images ==>
              form.files.Files? && form.files.image.Some? &&
              p == ImagePath(form.files.image.value.name) && r.0.images[p] == form.files.image.value.data
    // at most one Location and one Category are added, none when one matches
    ensures r.0.locations == db.locations || r.0.locations == db.locations + [LocationOf(form)]
    ensures LocationOf(form) in db.locations ==> r.0.locations == db.locations
    ensures r.0.categories == db.categories || r.0.categories == db.categories + [Category(form.category)]
    ensures Category(form.category) in db.categories ==> r.0.categories == db.categories
    // a failed submission inserts no report; a successful one inserts exactly this report
    ensures !r.1.Redirect? ==> r.0.reports == db.reports
    ensures r.1.Redirect? ==>
              && form.files.Files? && form.files.image.Some?
              && ImagePath(form.files.image.value.name) in r.0.images
              && |r.0.reports| == |db.reports| + 1
              && r.0.reports[..|db.reports|] == db.reports
              && var rep := r.0.reports[|db.reports|];
                 && rep.description == form.description
                 && rep.user == activeUser
                 && rep.status == Pending
                 && rep.likes == 0
                 && rep.image == form.files.image.value.name
                 && rep.urgency == UrgencyOf(form.urgency)
                 && rep.location < |r.0.locations| && r.0.locations[rep.location] == LocationOf(form)
                 && rep.category < |r.0.categories| && r.0.categories[rep.category] == Category(form.category)
  {
    var urgency := UrgencyOf(form.urgency);
    match form.files
    case NoFiles => (db, ServerError)
    case Files(None) => (db, Status(400))
    case Files(Some(image)) =>
      if !IsImageType(image.mimetype) then (db, Status(400))
      else
        var path := ImagePath(image.name);
        if path !in db.images && failAt == Some(ImageWrite) then (db, ServerError)
        else
          var db1 := if path in db.images then db else db.(images := db.images[path := image.data]);
          var loc := FindOrCreate(db1.locations, LocationOf(form),
                                  failAt == Some(LocationLookup), failAt == Some(LocationSave));
          var db2 := db1.(locations := loc.entities);
          if loc.id.None? then (db2, ServerError)
          else
            var cat := FindOrCreate(db2.categories, Category(form.category),
                                    failAt == Some(CategoryLookup), failAt == Some(CategorySave));
            var db3 := db2.(categories := cat.entities);
            if cat.id.None? then (db3, ServerError)
            else if failAt == Some(ReportSave) then (db3, ServerError)
            else
              var report := Report(form.description, activeUser, loc.id.value, cat.id.value,
                                   Pending, image.name, urgency, 0);
              (db3.(reports := db3.reports + [report]), Redirect("/"))
  }

  /** Under a single writer, a submission keeps one Location per address, one
      Category per name and no dangling report reference, whatever step fails. */
  lemma SubmitPreservesValid(db: Db, activeUser: Option<Id>, form: ReportForm, failAt: Option<Step>)
    requires Valid(db)
    ensures Valid(Submit(db, activeUser, form, failAt).0)
  {
  }

  /** Two accepted submissions for the same address and category create one
      Location and one Category between them, and two Reports that share them. */
  lemma ResubmitReusesEntities(db: Db, activeUser: Option<Id>, first: ReportForm, second: ReportForm)
    requires Accepted(first.files) && Accepted(second.files)
    requires LocationOf(first) == LocationOf(second) && first.category == second.category
    ensures var db1 := Submit(db, activeUser, first, None).0;
            var db2 := Submit(db1, activeUser, second, None).0;
            && db2.locations == db1.locations
            && db2.categories == db1.categories
            && |db2.locations| <= |db.locations| + 1
            && |db2.categories| <= |db.categories| + 1
            && |db2.reports| == |db.reports| + 2
            && db2.reports[|db.reports|].location == db2.reports[|db.reports| + 1].location
            && db2.reports[|db.reports|].category == db2.reports[|db.reports| + 1].category
  {
  }

  /** Image placement is keyed by file name only: a second upload under the
      same name, with other content, leaves the first content on disk. */
  lemma FirstImageWriteWins(db: Db, activeUser: Option<Id>, first: ReportForm, second: ReportForm,
                            failSecond: Option<Step>)
    requires Accepted(first.files) && Accepted(second.files)
    requires first.files.image.value.name == second.files.image.value.name
    requires ImagePath(first.files.image.value.name) !in db.images
    ensures var path := ImagePath(first.files.image.value.name);
            var db1 := Submit(db, activeUser, first, None).0;
            var db2 := Submit(db1, activeUser, second, failSecond).0;
            path in db2.images && db2.images[path] == first.files.image.value.data
  {
  }

  /** There is no rollback: when a step that runs fails, the answer is a 500,
      no report is added, whatever the earlier steps wrote stays, and the
      later steps write nothing. */
  lemma FailedStepKeepsEarlierWrites(db: Db, activeUser: Option<Id>, form: ReportForm, step: Step)
    requires Accepted(form.files) && Runs(db, form, step)
    ensures var r := Submit(db, activeUser, form, Some(step));
            var path := ImagePath(form.files.image.value.name);
            && r.1 == ServerError
            && r.0.reports == db.reports
            && r.0.users == db.users
            // the image is moved before any other step
            && (step == ImageWrite ==> r.0 == db)
            && (step != ImageWrite ==>
                  path in r.0.images &&
                  r.0.images[path] == if path in db.images then db.images[path] else form.files.image.value.data)
            // the Location is resolved next
            && (step in {ImageWrite, LocationLookup, LocationSave} ==> r.0.locations == db.locations)
            && (step !in {ImageWrite, LocationLookup, LocationSave} ==> LocationOf(form) in r.0.locations)
            // then the Category
            && (step != ReportSave ==> r.0.categories == db.categories)
            && (step == ReportSave ==> Category(form.category) in r.0.categories)
  {
  }

  /** An urgency index outside the table is not rejected: the report is
      inserted with no urgency. */
  lemma OutOfRangeUrgencyIsStored(db: Db, activeUser: Option<Id>, form: ReportForm)
    requires Accepted(form.files) && form.urgency == 3
    ensures var r := Submit(db, activeUser, form, None);
            r.1 == Redirect("/") && r.0.reports[|db.reports|].urgency == None
  {
  }

  /** A first pothole report on a fresh store: one Location, one Category and
      one High-urgency Pending Report are created and the image is on disk. */
  lemma FirstPotholeReport(activeUser: Option<Id>)
    ensures var image := Upload("p.png", "image/png", [1]);
            var form := ReportForm("Pothole", "", "Springfield", "Main", "12", "00000", 2, Files(Some(image)));
            var r := Submit(Db([], [], [], [], map[]), activeUser, form, None);
            && r.1 == Redirect("/")
            && r.0.locations == [Location("Springfield", "Main", "12", "00000")]
            && r.0.categories == [Category("Pothole")]
            && r.0.reports == [Report("", activeUser, 0, 0, "Pending", "p.png", Some("High"), 0)]
            && r.0.images == map["public/images/p.png" := [1]]
  {
    var image := Upload("p.png", "image/png", [1]);
    assert IsImageType(image.mimetype) by { assert "image/png"[..5] == "image"; }
    assert ImagePath("p.png") == "public/images/p.png";
    assert UrgencyOf(2) == Some("High");
  }
}
