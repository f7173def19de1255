/** The product handlers: minting a product, reading it back, recording the
    sample time and counting products by stage. */
module ProductRoutes {
  import opened Wrappers
  import opened Time
  import opened Responses
  import opened Models
  import opened Store
  import Auth
  import Barcode

  const DoneMessage: string := "成功"

  /** `init_product`. The generator is advanced first, whatever follows. A
      barcode already on exactly one row is refused; otherwise (none, or
      several) a new `Initialized` row is inserted and the answer is the QR
      domain root followed by the barcode. `stamp` is the generator's clock
      reading and `now` the later one stored as `init_time`. */
  method InitProduct(db: Database, generator: Barcode.BarcodeGenerator, domainRoot: string, stamp: DateTime, now: Instant)
    returns (r: GenericResult<string>)
    requires db.Valid()
    modifies db, generator
    ensures db.Valid()
    ensures generator.State() == Barcode.Advance(old(generator.State()), stamp).0
    ensures var barcode := Barcode.FormatBarcode(stamp, Barcode.Advance(old(generator.State()), stamp).1);
      && (Count(old(db.products), HasBarcode(barcode)) == 1 ==>
            r == Err(ProductDuplicateError)
            && db.products == old(db.products) && db.productSeq == old(db.productSeq))
      && (Count(old(db.products), HasBarcode(barcode)) != 1 ==>
            && r == Build(domainRoot + barcode)
            && old(db.productSeq) !in old(db.products)
            && db.products == old(db.products)[old(db.productSeq) :=
                 Product(old(db.productSeq), barcode, None, now, Initialized, None)]
            && db.productSeq == old(db.productSeq) + 1)
    ensures db.profiles == old(db.profiles) && db.reports == old(db.reports) && db.users == old(db.users)
    ensures db.profileSeq == old(db.profileSeq) && db.userSeq == old(db.userSeq)
  {
    var barcode := generator.Get(stamp);
    if Count(db.products, HasBarcode(barcode)) == 1 {
      return Err(ProductDuplicateError);
    }
    var id := db.productSeq;
    db.products := db.products[id := Product(id, barcode, None, now, Initialized, None)];
    db.productSeq := id + 1;
    r := Build(domainRoot + barcode);
  }

  /** Whether a caller may read a product: anyone while it is `Initialized`;
      afterwards staff and admins, and a user only through a profile of theirs. */
  predicate MayView(p: Product, profiles: map<int, Profile>, caller: Auth.UserDigest) {
    || p.stage == Initialized
    || caller.userRole != User
    || (p.profileId.Some? && p.profileId.value in profiles && profiles[p.profileId.value].userId == caller.userId)
  }

  /** `get_product_digest`. */
  function GetProductDigest(products: map<int, Product>, profiles: map<int, Profile>, barcode: string, caller: Auth.UserDigest)
    : (r: GenericResult<Product>)
    ensures First(products, HasBarcode(barcode)).Err? ==> r == Err(DieselError(NotFound))
    ensures First(products, HasBarcode(barcode)).Ok? ==>
      var p := First(products, HasBarcode(barcode)).value;
      && (r.Ok? <==> MayView(p, profiles, caller))
      && (r.Ok? ==> r.value.data == p && r.value.data.barcode == barcode)
      && (p.stage != Initialized && caller.userRole == User ==>
            && (p.profileId.None? ==> r == Err(ServerInternalError))
            && (p.profileId.Some? && p.profileId.value !in profiles ==> r == Err(DieselError(NotFound)))
            && (p.profileId.Some? && p.profileId.value in profiles ==>
                  (profiles[p.profileId.value].userId != caller.userId ==> r == Err(PermissionDeniedError))))
  {
    match First(products, HasBarcode(barcode))
    case Err(e) => Err(DieselError(e))
    case Ok(p) =>
      if p.stage == Initialized then Build(p)
      else if caller.userRole != User then Build(p)
      else if p.profileId.None? then Err(ServerInternalError)
      else match Find(profiles, p.profileId.value)
        case Err(e) => Err(DieselError(e))
        case Ok(profile) => if profile.userId == caller.userId then Build(p) else Err(PermissionDeniedError)
  }

  /** A user who owns a submitted product's profile sees it; any other user
      does not; staff and admins always do. */
  lemma DigestVisibility(products: map<int, Product>, profiles: map<int, Profile>, barcode: string,
                         owner: Auth.UserDigest, other: Auth.UserDigest, staff: Auth.UserDigest)
    requires First(products, HasBarcode(barcode)).Ok?
    requires var p := First(products, HasBarcode(barcode)).value;
      p.stage != Initialized && p.profileId.Some? && p.profileId.value in profiles
      && profiles[p.profileId.value].userId == owner.userId
    requires other.userRole == User && other.userId != owner.userId
    requires staff.userRole != User
    ensures GetProductDigest(products, profiles, barcode, owner).Ok?
    ensures GetProductDigest(products, profiles, barcode, other) == Err(PermissionDeniedError)
    ensures GetProductDigest(products, profiles, barcode, staff).Ok?
  {
  }

  /** `get_products`: a page of all products in id order. */
  function GetProducts(products: map<int, Product>, page: int): (r: GenericResult<seq<Product>>)
    ensures r.Err? <==> PageOffset(page) < 0
    ensures r.Err? ==> r.error == DieselError(DatabaseError(NegativeOffsetMessage))
    ensures r.Ok? ==> r.value.data == ListPage(products, AnyProduct(), page).value && |r.value.data| <= PageSize
  {
    match ListPage(products, AnyProduct(), page)
    case Err(e) => Err(DieselError(e))
    case Ok(rows) => Build(rows)
  }

  /** `get_filtered_products`: a page of the products in one stage, in id order. */
  function GetFilteredProducts(products: map<int, Product>, page: int, filter: StageEnum)
    : (r: GenericResult<seq<Product>>)
    ensures r.Err? <==> PageOffset(page) < 0
    ensures r.Err? ==> r.error == DieselError(DatabaseError(NegativeOffsetMessage))
    ensures r.Ok? ==> r.value.data == ListPage(products, InStage(filter), page).value
    ensures r.Ok? ==> |r.value.data| <= PageSize
    ensures r.Ok? ==> forall i :: 0 <= i < |r.value.data| ==> r.value.data[i].stage == filter
  {
    match ListPage(products, InStage(filter), page)
    case Err(e) => Err(DieselError(e))
    case Ok(rows) =>
      ListPageSound(products, InStage(filter), page);
      Build(rows)
  }

  /** `get_product`: the product with the barcode. */
  function GetProduct(products: map<int, Product>, barcode: string): (r: GenericResult<Product>)
    ensures r.Ok? <==> exists k :: k in products && products[k].barcode == barcode
    ensures r.Ok? ==> r.value.data.barcode == barcode && r.value.data in products.Values
    ensures r.Err? ==> r.error == DieselError(NotFound)
  {
    match First(products, HasBarcode(barcode))
    case Err(e) => Err(DieselError(e))
    case Ok(p) => Build(p)
  }

  /** `get_profile_by_product`: the profile linked to the barcode's product. */
  function GetProfileByProduct(products: map<int, Product>, profiles: map<int, Profile>, barcode: string)
    : (r: GenericResult<Profile>)
    ensures First(products, HasBarcode(barcode)).Err? ==> r == Err(DieselError(NotFound))
    ensures First(products, HasBarcode(barcode)).Ok? ==>
      var p := First(products, HasBarcode(barcode)).value;
      && (p.profileId.None? ==> r == Err(ProfileNotExistError))
      && (p.profileId.Some? ==>
            if p.profileId.value in profiles then r == Build(profiles[p.profileId.value])
            else r == Err(DieselError(NotFound)))
  {
    match First(products, HasBarcode(barcode))
    case Err(e) => Err(DieselError(e))
    case Ok(p) =>
      if p.profileId.None? then Err(ProfileNotExistError)
      else match Find(profiles, p.profileId.value)
        case Err(e) => Err(DieselError(e))
        case Ok(profile) => Build(profile)
  }

  function WithStage(stage: StageEnum): Product -> Product {
    (p: Product) => p.(stage := stage)
  }

  /** `submit_sample_time`. The barcode's product must have a profile, and
      the caller must own it or be staff or admin. The profile's sample time
      is then set; if the product was `Submitted` or `Sampled`, every product
      with the barcode becomes `Sampled`; any other stage is left alone. */
  method SubmitSampleTime(db: Database, caller: Auth.UserDigest, sampleTime: Instant, barcode: string)
    returns (r: GenericResult<string>)
    requires db.Valid()
    modifies db
    ensures db.Valid()
    ensures db.reports == old(db.reports) && db.users == old(db.users)
    ensures db.productSeq == old(db.productSeq) && db.profileSeq == old(db.profileSeq) && db.userSeq == old(db.userSeq)
    ensures First(old(db.products), HasBarcode(barcode)).Err? ==>
      r == Err(DieselError(NotFound)) && db.products == old(db.products) && db.profiles == old(db.profiles)
    ensures First(old(db.products), HasBarcode(barcode)).Ok? ==>
      var p := First(old(db.products), HasBarcode(barcode)).value;
      && (p.profileId.None? ==>
            r == Err(ProfileNotExistError) && db.products == old(db.products) && db.profiles == old(db.profiles))
      && (p.profileId.Some? && p.profileId.value !in old(db.profiles) ==>
            r == Err(DieselError(NotFound)) && db.products == old(db.products) && db.profiles == old(db.profiles))
      && (p.profileId.Some? && p.profileId.value in old(db.profiles) ==>
            var profile := old(db.profiles)[p.profileId.value];
            if profile.userId != caller.userId && caller.userRole == User then
              r == Err(PermissionDeniedError) && db.products == old(db.products) && db.profiles == old(db.profiles)
            else
              && r == Build(DoneMessage)
              && db.profiles == old(db.profiles)[p.profileId.value := profile.(sampleTime := Some(sampleTime))]
              && db.products == if p.stage == Submitted || p.stage == Sampled
                                then UpdateWhere(old(db.products), HasBarcode(barcode), WithStage(Sampled))
                                else old(db.products))
  {
    var found := First(db.products, HasBarcode(barcode));
    if found.Err? {
      return Err(DieselError(found.error));
    }
    var p := found.value;
    if p.profileId.None? {
      return Err(ProfileNotExistError);
    }
    var profileId := p.profileId.value;
    var lookup := Find(db.profiles, profileId);
    if lookup.Err? {
      return Err(DieselError(lookup.error));
    }
    var profile := lookup.value;
    if !(profile.userId == caller.userId || caller.userRole == Admin || caller.userRole == Staff) {
      return Err(PermissionDeniedError);
    }
    db.profiles := db.profiles[profileId := profile.(sampleTime := Some(sampleTime))];
    if p.stage == Submitted || p.stage == Sampled {
      db.products := UpdateWhere(db.products, HasBarcode(barcode), WithStage(Sampled));
    }
    r := Build(DoneMessage);
  }

  datatype ProductStatistics = ProductStatistics(
    total: nat, initialized: nat, submitted: nat, sampled: nat, finished: nat)

  /** `get_product_statistics`: the table size and the count in each stage. */
  function GetProductStatistics(products: map<int, Product>): (r: GenericResult<ProductStatistics>)
    ensures r.Ok? && r.value.data.total == |products|
    ensures r.value.data.initialized == Count(products, InStage(Initialized))
    ensures r.value.data.submitted == Count(products, InStage(Submitted))
    ensures r.value.data.sampled == Count(products, InStage(Sampled))
    ensures r.value.data.finished == Count(products, InStage(Finished))
  {
    Build(ProductStatistics(
      |products|,
      Count(products, InStage(Initialized)), Count(products, InStage(Submitted)),
      Count(products, InStage(Sampled)), Count(products, InStage(Finished))))
  }

  /** Every product is in exactly one stage, so the four counts add up to the total. */
  lemma StagesPartitionProducts(products: map<int, Product>)
    ensures var s := GetProductStatistics(products).value.data;
      s.initialized + s.submitted + s.sampled + s.finished == s.total
  {
    var a := Selected(products, InStage(Initialized));
    var b := Selected(products, InStage(Submitted));
    var c := Selected(products, InStage(Sampled));
    var d := Selected(products, InStage(Finished));
    assert |a + b| == |a| + |b| by {
      OtherStages(products, Initialized, Submitted, {});
      StageCount(products, Submitted, a);
    }
    assert |a + b + c| == |a + b| + |c| by {
      OtherStages(products, Initialized, Sampled, {});
      OtherStages(products, Submitted, Sampled, a);
      StageCount(products, Sampled, a + b);
    }
    assert |a + b + c + d| == |a + b + c| + |d| by {
      OtherStages(products, Initialized, Finished, {});
      OtherStages(products, Submitted, Finished, a);
      OtherStages(products, Sampled, Finished, a + b);
      StageCount(products, Finished, a + b + c);
    }
    StagesCoverProducts(products);
  }

  /** Every product is in the selection of its own stage. */
  lemma OwnStage(products: map<int, Product>, k: int)
    requires k in products
    ensures k in Selected(products, InStage(products[k].stage))
  {
    assert InStage(products[k].stage)(products[k]);
  }

  /** The four stage selections together hold every product. */
  lemma StagesCoverProducts(products: map<int, Product>)
    ensures products.Keys == Selected(products, InStage(Initialized)) + Selected(products, InStage(Submitted))
                             + Selected(products, InStage(Sampled)) + Selected(products, InStage(Finished))
  {
    forall k | k in products
      ensures k in Selected(products, InStage(Initialized)) + Selected(products, InStage(Submitted))
                   + Selected(products, InStage(Sampled)) + Selected(products, InStage(Finished))
    {
      OwnStage(products, k);
      match products[k].stage
      case Initialized =>
      case Submitted =>
      case Sampled =>
      case Finished =>
    }
  }

  /** Adding the products of stage `s1` to products of stages other than `s2`
      keeps them clear of `s2`. */
  lemma OtherStages(products: map<int, Product>, s1: StageEnum, s2: StageEnum, others: set<int>)
    requires s1 != s2
    requires forall k :: k in others ==> k in products && products[k].stage != s2
    ensures forall k :: k in others + Selected(products, InStage(s1)) ==> k in products && products[k].stage != s2
  {
    forall k | k in Selected(products, InStage(s1))
      ensures products[k].stage != s2
    {
      assert InStage(s1)(products[k]);
    }
  }

  /** Adding the products of one more stage to a set of products in other
      stages adds exactly that stage's count. */
  lemma StageCount(products: map<int, Product>, stage: StageEnum, others: set<int>)
    requires forall k :: k in others ==> k in products && products[k].stage != stage
    ensures var x := Selected(products, InStage(stage));
      |others + x| == |others| + |x|
      && forall k :: k in products && products[k].stage == stage ==> k in others + x
  {
    var x := Selected(products, InStage(stage));
    forall k | k in x
      ensures k !in others
    {
      assert InStage(stage)(products[k]);
    }
    assert others * x == {};
  }
}
