/** The profile handlers: submitting the questionnaire for a fresh product and
    reading a profile back. */
module ProfileRoutes {
  import opened Wrappers
  import opened Time
  import opened Responses
  import opened Models
  import opened Store
  import Auth

  const SubmittedMessage: string := "提交成功"

  /** The product row after its profile is filed: linked to the profile and
      moved to `Submitted`. */
  function AfterSubmission(p: Product, profileId: int): (q: Product)
    ensures q.id == p.id && q.barcode == p.barcode && q.initTime == p.initTime && q.reportId == p.reportId
    ensures q.profileId == Some(profileId) && q.stage == Submitted
  {
    p.(profileId := Some(profileId), stage := Submitted)
  }

  /** The profile row that is stored: the submitted personal data and sample
      time, under a fresh id, owned by the caller and stamped with `now`. */
  function FiledProfile(form: Profile, id: int, caller: Auth.UserDigest, now: Instant): (f: Profile)
    ensures f.id == id && f.userId == caller.userId && f.submitTime == now
    ensures f.info == form.info && f.sampleTime == form.sampleTime
  {
    form.(id := id, userId := caller.userId, submitTime := now)
  }

  /** `submit_profile`. The barcode's first product must still be
      `Initialized`; the caller's form is then filed as a new profile and that
      product (only that row) is linked to it and becomes `Submitted`. */
  method SubmitProfile(db: Database, barcode: string, form: Profile, caller: Auth.UserDigest, now: Instant)
    returns (r: GenericResult<string>)
    requires db.Valid()
    modifies db
    ensures db.Valid()
    ensures db.reports == old(db.reports) && db.users == old(db.users)
    ensures db.productSeq == old(db.productSeq) && db.userSeq == old(db.userSeq)
    ensures First(old(db.products), HasBarcode(barcode)).Err? ==>
      && r == Err(DieselError(NotFound))
      && db.products == old(db.products) && db.profiles == old(db.profiles) && db.profileSeq == old(db.profileSeq)
    ensures First(old(db.products), HasBarcode(barcode)).Ok? ==>
      var p := First(old(db.products), HasBarcode(barcode)).value;
      && p.id in old(db.products)
      && (p.stage != Initialized ==>
            && r == Err(ProductReuseError)
            && db.products == old(db.products) && db.profiles == old(db.profiles) && db.profileSeq == old(db.profileSeq))
      && (p.stage == Initialized ==>
            && r == Build(SubmittedMessage)
            && old(db.profileSeq) !in old(db.profiles)
            && db.profiles == old(db.profiles)[old(db.profileSeq) := FiledProfile(form, old(db.profileSeq), caller, now)]
            && db.profileSeq == old(db.profileSeq) + 1
            && db.products == old(db.products)[p.id := AfterSubmission(p, old(db.profileSeq))])
  {
    var found := First(db.products, HasBarcode(barcode));
    if found.Err? {
      return Err(DieselError(found.error));
    }
    var p := found.value;
    assert p.id in db.products by {
      var k := MinKey(Selected(db.products, HasBarcode(barcode)));
      assert db.products[k] == p;
    }
    if p.stage != Initialized {
      return Err(ProductReuseError);
    }
    var id := db.profileSeq;
    db.profiles := db.profiles[id := FiledProfile(form, id, caller, now)];
    db.profileSeq := id + 1;
    // `UPDATE products WHERE id = p.id` touches exactly the one row found
    // above, so the source's zero-row branch cannot be taken here.
    db.products := db.products[p.id := AfterSubmission(p, id)];
    r := Build(SubmittedMessage);
  }

  /** After a profile is filed for a barcode, the barcode's first product is
      that same row, now `Submitted`: the selection by barcode has not changed. */
  lemma SubmissionKeepsSelection(products: map<int, Product>, barcode: string, p: Product, profileId: int)
    requires forall k :: k in products ==> products[k].id == k
    requires First(products, HasBarcode(barcode)) == Ok(p)
    ensures p.id in products
    ensures Selected(products[p.id := AfterSubmission(p, profileId)], HasBarcode(barcode))
         == Selected(products, HasBarcode(barcode))
    ensures First(products[p.id := AfterSubmission(p, profileId)], HasBarcode(barcode))
         == Ok(AfterSubmission(p, profileId))
  {
    var m := MinKey(Selected(products, HasBarcode(barcode)));
    assert products[m] == p;
    var after := products[p.id := AfterSubmission(p, profileId)];
    forall k | k in products
      ensures HasBarcode(barcode)(after[k]) == HasBarcode(barcode)(products[k])
    {
    }
  }

  /** A second submission for the same barcode is refused with
      `ProductReuseError` and files nothing. */
  method SubmitTwice(db: Database, barcode: string, form1: Profile, form2: Profile, caller: Auth.UserDigest, now: Instant)
    returns (r1: GenericResult<string>, r2: GenericResult<string>)
    requires db.Valid()
    modifies db
    ensures r1.Ok? ==> r2 == Err(ProductReuseError)
    ensures r1.Ok? ==> |db.profiles| == |old(db.profiles)| + 1
  {
    ghost var before := db.profiles;
    ghost var products := db.products;
    r1 := SubmitProfile(db, barcode, form1, caller, now);
    if r1.Ok? {
      var p := First(products, HasBarcode(barcode)).value;
      assert p.stage == Initialized;
      SubmissionKeepsSelection(products, barcode, p, old(db.profileSeq));
      ghost var after := db.profiles;
      r2 := SubmitProfile(db, barcode, form2, caller, now);
      assert db.profiles == after;
      assert |after| == |before| + 1;
    } else {
      r2 := SubmitProfile(db, barcode, form2, caller, now);
    }
  }

  /** `get_profile`: the profile with that id, whoever asks. */
  function GetProfile(profiles: map<int, Profile>, id: int): (r: GenericResult<Profile>)
    ensures r.Ok? <==> id in profiles
    ensures r.Ok? ==> r.value.data == profiles[id]
    ensures r.Err? ==> r.error == DieselError(NotFound)
  {
    match Find(profiles, id)
    case Err(e) => Err(DieselError(e))
    case Ok(profile) => Build(profile)
  }
}
