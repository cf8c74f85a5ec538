/**
 * The stored merchant profile and `updateMerchant`, which overwrites exactly the fields a request
 * supplies.
 */
module MerchantProfiles {
  import opened Wrappers
  import opened Calendar

  /** A date as a profile stores it: a valid calendar date, kept whole. */
  datatype StoredDate = StoredDate(date: LocalDate)

  /** The stored profile of a merchant, as a value; fields other than the id may be null. */
  datatype Profile = Profile(
    merchantId: string,
    merchantName: Option<string>,
    businessName: Option<string>,
    businessType: Option<string>,
    taxId: Option<string>,
    email: Option<string>,
    phone: Option<string>,
    website: Option<string>,
    addressLine1: Option<string>,
    addressLine2: Option<string>,
    city: Option<string>,
    state: Option<string>,
    postalCode: Option<string>,
    country: Option<string>,
    registrationDate: Option<StoredDate>,
    industry: Option<string>,
    annualRevenueRange: Option<string>,
    employeeCountRange: Option<string>,
    status: Option<string>,
    riskLevel: Option<string>,
    notes: Option<string>)

  /** `UpdateMerchantRequest`: every profile field except the id, each one null when not to be changed. */
  datatype UpdateRequest = UpdateRequest(
    merchantName: Option<string>,
    businessName: Option<string>,
    businessType: Option<string>,
    taxId: Option<string>,
    email: Option<string>,
    phone: Option<string>,
    website: Option<string>,
    addressLine1: Option<string>,
    addressLine2: Option<string>,
    city: Option<string>,
    state: Option<string>,
    postalCode: Option<string>,
    country: Option<string>,
    registrationDate: Option<StoredDate>,
    industry: Option<string>,
    annualRevenueRange: Option<string>,
    employeeCountRange: Option<string>,
    status: Option<string>,
    riskLevel: Option<string>,
    notes: Option<string>)

  /** A request that changes nothing. */
  const NoChange: UpdateRequest :=
    UpdateRequest(None, None, None, None, None, None, None, None, None, None,
                  None, None, None, None, None, None, None, None, None, None)

  /** A field after an update: the requested value when there is one, the current value otherwise. */
  function Override<T>(current: Option<T>, requested: Option<T>): Option<T> {
    if requested.Some? then requested else current
  }

  /** The profile after an update that overwrites exactly the non-null fields of the request. */
  function Merge(p: Profile, req: UpdateRequest): Profile {
    Profile(
      p.merchantId,
      Override(p.merchantName, req.merchantName),
      Override(p.businessName, req.businessName),
      Override(p.businessType, req.businessType),
      Override(p.taxId, req.taxId),
      Override(p.email, req.email),
      Override(p.phone, req.phone),
      Override(p.website, req.website),
      Override(p.addressLine1, req.addressLine1),
      Override(p.addressLine2, req.addressLine2),
      Override(p.city, req.city),
      Override(p.state, req.state),
      Override(p.postalCode, req.postalCode),
      Override(p.country, req.country),
      Override(p.registrationDate, req.registrationDate),
      Override(p.industry, req.industry),
      Override(p.annualRevenueRange, req.annualRevenueRange),
      Override(p.employeeCountRange, req.employeeCountRange),
      Override(p.status, req.status),
      Override(p.riskLevel, req.riskLevel),
      Override(p.notes, req.notes))
  }

  /** Two requests applied in turn: the later one's fields where it has them, the earlier one's elsewhere. */
  function Then(first: UpdateRequest, second: UpdateRequest): UpdateRequest {
    UpdateRequest(
      Override(first.merchantName, second.merchantName),
      Override(first.businessName, second.businessName),
      Override(first.businessType, second.businessType),
      Override(first.taxId, second.taxId),
      Override(first.email, second.email),
      Override(first.phone, second.phone),
      Override(first.website, second.website),
      Override(first.addressLine1, second.addressLine1),
      Override(first.addressLine2, second.addressLine2),
      Override(first.city, second.city),
      Override(first.state, second.state),
      Override(first.postalCode, second.postalCode),
      Override(first.country, second.country),
      Override(first.registrationDate, second.registrationDate),
      Override(first.industry, second.industry),
      Override(first.annualRevenueRange, second.annualRevenueRange),
      Override(first.employeeCountRange, second.employeeCountRange),
      Override(first.status, second.status),
      Override(first.riskLevel, second.riskLevel),
      Override(first.notes, second.notes))
  }

  /**
   * The id never changes; a request field that is present is the new value, an absent one keeps the
   * old value (shown here for the name, the e-mail, the registration date and the status, and alike
   * for every other field); a request without fields changes nothing.
   */
  lemma MergeOverwritesPresentFields(p: Profile, req: UpdateRequest)
    ensures Merge(p, req).merchantId == p.merchantId
    ensures Merge(p, req).merchantName == if req.merchantName.Some? then req.merchantName else p.merchantName
    ensures Merge(p, req).email == if req.email.Some? then req.email else p.email
    ensures Merge(p, req).registrationDate == if req.registrationDate.Some? then req.registrationDate else p.registrationDate
    ensures Merge(p, req).status == if req.status.Some? then req.status else p.status
    ensures Merge(p, NoChange) == p
  {
  }

  /** Updating twice is updating once with the later request laid over the earlier one. */
  lemma MergeComposes(p: Profile, first: UpdateRequest, second: UpdateRequest)
    ensures Merge(Merge(p, first), second) == Merge(p, Then(first, second))
  {
  }

  /** Repeating an update changes nothing more. */
  lemma MergeIdempotent(p: Profile, req: UpdateRequest)
    ensures Merge(Merge(p, req), req) == Merge(p, req)
  {
    MergeComposes(p, req, req);
    assert Then(req, req) == req;
  }

  /** The `Merchant` entity, whose profile fields `updateMerchant` sets one by one. */
  class Merchant {
    var merchantId: string
    var merchantName: Option<string>
    var businessName: Option<string>
    var businessType: Option<string>
    var taxId: Option<string>
    var email: Option<string>
    var phone: Option<string>
    var website: Option<string>
    var addressLine1: Option<string>
    var addressLine2: Option<string>
    var city: Option<string>
    var state: Option<string>
    var postalCode: Option<string>
    var country: Option<string>
    var registrationDate: Option<StoredDate>
    var industry: Option<string>
    var annualRevenueRange: Option<string>
    var employeeCountRange: Option<string>
    var status: Option<string>
    var riskLevel: Option<string>
    var notes: Option<string>

    constructor (p: Profile)
      ensures Snapshot() == p
    {
      merchantId := p.merchantId;
      merchantName := p.merchantName;
      businessName := p.businessName;
      businessType := p.businessType;
      taxId := p.taxId;
      email := p.email;
      phone := p.phone;
      website := p.website;
      addressLine1 := p.addressLine1;
      addressLine2 := p.addressLine2;
      city := p.city;
      state := p.state;
      postalCode := p.postalCode;
      country := p.country;
      registrationDate := p.registrationDate;
      industry := p.industry;
      annualRevenueRange := p.annualRevenueRange;
      employeeCountRange := p.employeeCountRange;
      status := p.status;
      riskLevel := p.riskLevel;
      notes := p.notes;
    }

    /** The current field values. */
    function Snapshot(): Profile
      reads this
    {
      Profile(merchantId, merchantName, businessName, businessType, taxId, email, phone, website,
              addressLine1, addressLine2, city, state, postalCode, country, registrationDate, industry,
              annualRevenueRange, employeeCountRange, status, riskLevel, notes)
    }

    /**
     * The "update fields if provided" block: each field is set, one after the other, to the request's
     * value when that is non-null and kept otherwise; the id is never touched.
     */
    method Apply(req: UpdateRequest)
      modifies this
      ensures Snapshot() == Merge(old(Snapshot()), req)
    {
      ghost var p0 := Snapshot();
      ApplyBusinessFields(req);
      ghost var p1 := Snapshot();
      assert p1 == p0.(
              merchantName := Override(p0.merchantName, req.merchantName),
              businessName := Override(p0.businessName, req.businessName),
              businessType := Override(p0.businessType, req.businessType),
              taxId := Override(p0.taxId, req.taxId),
              registrationDate := Override(p0.registrationDate, req.registrationDate),
              industry := Override(p0.industry, req.industry),
              annualRevenueRange := Override(p0.annualRevenueRange, req.annualRevenueRange),
              employeeCountRange := Override(p0.employeeCountRange, req.employeeCountRange),
              status := Override(p0.status, req.status),
              riskLevel := Override(p0.riskLevel, req.riskLevel));
      ApplyContactFields(req);
      ghost var p2 := Snapshot();
      assert p2 == p1.(
              email := Override(p1.email, req.email),
              phone := Override(p1.phone, req.phone),
              website := Override(p1.website, req.website),
              addressLine1 := Override(p1.addressLine1, req.addressLine1),
              addressLine2 := Override(p1.addressLine2, req.addressLine2),
              city := Override(p1.city, req.city),
              state := Override(p1.state, req.state),
              postalCode := Override(p1.postalCode, req.postalCode),
              country := Override(p1.country, req.country),
              notes := Override(p1.notes, req.notes));
    }

    /** The name, business, tax, registration, classification and status fields. */
    method ApplyBusinessFields(req: UpdateRequest)
      modifies this`merchantName, this`businessName, this`businessType, this`taxId, this`registrationDate,
               this`industry, this`annualRevenueRange, this`employeeCountRange, this`status, this`riskLevel
      ensures merchantName == Override(old(merchantName), req.merchantName)
      ensures businessName == Override(old(businessName), req.businessName)
      ensures businessType == Override(old(businessType), req.businessType)
      ensures taxId == Override(old(taxId), req.taxId)
      ensures registrationDate == Override(old(registrationDate), req.registrationDate)
      ensures industry == Override(old(industry), req.industry)
      ensures annualRevenueRange == Override(old(annualRevenueRange), req.annualRevenueRange)
      ensures employeeCountRange == Override(old(employeeCountRange), req.employeeCountRange)
      ensures status == Override(old(status), req.status)
      ensures riskLevel == Override(old(riskLevel), req.riskLevel)
    {
      merchantName := Override(merchantName, req.merchantName);
      businessName := Override(businessName, req.businessName);
      businessType := Override(businessType, req.businessType);
      taxId := Override(taxId, req.taxId);
      registrationDate := Override(registrationDate, req.registrationDate);
      industry := Override(industry, req.industry);
      annualRevenueRange := Override(annualRevenueRange, req.annualRevenueRange);
      employeeCountRange := Override(employeeCountRange, req.employeeCountRange);
      status := Override(status, req.status);
      riskLevel := Override(riskLevel, req.riskLevel);
    }

    /** The contact, address and notes fields. */
    method ApplyContactFields(req: UpdateRequest)
      modifies this`email, this`phone, this`website, this`addressLine1, this`addressLine2, this`city,
               this`state, this`postalCode, this`country, this`notes
      ensures email == Override(old(email), req.email)
      ensures phone == Override(old(phone), req.phone)
      ensures website == Override(old(website), req.website)
      ensures addressLine1 == Override(old(addressLine1), req.addressLine1)
      ensures addressLine2 == Override(old(addressLine2), req.addressLine2)
      ensures city == Override(old(city), req.city)
      ensures state == Override(old(state), req.state)
      ensures postalCode == Override(old(postalCode), req.postalCode)
      ensures country == Override(old(country), req.country)
      ensures notes == Override(old(notes), req.notes)
    {
      email := Override(email, req.email);
      phone := Override(phone, req.phone);
      website := Override(website, req.website);
      addressLine1 := Override(addressLine1, req.addressLine1);
      addressLine2 := Override(addressLine2, req.addressLine2);
      city := Override(city, req.city);
      state := Override(state, req.state);
      postalCode := Override(postalCode, req.postalCode);
      country := Override(country, req.country);
      notes := Override(notes, req.notes);
    }
  }

  /**
   * `updateMerchant`: looks the merchant up by id in the stored entities (each stored under its own
   * id), fails with "Merchant not found: <id>" when there is none, and otherwise applies the request to
   * that entity alone and returns its new profile, which keeps the requested id.
   */
  method UpdateMerchant(store: map<string, Merchant>, merchantId: string, req: UpdateRequest)
    returns (r: Result<Profile, string>)
    requires forall k :: k in store ==> store[k].merchantId == k
    modifies store.Values
    ensures r.Success? ==> r.value.merchantId == merchantId
    ensures merchantId !in store ==> r == Failure("Merchant not found: " + merchantId)
    ensures merchantId in store ==>
              r == Success(store[merchantId].Snapshot()) &&
              store[merchantId].Snapshot() == Merge(old(store[merchantId].Snapshot()), req)
    ensures forall m :: m in store.Values && (merchantId !in store || m != store[merchantId]) ==>
              m.Snapshot() == old(m.Snapshot())
  {
    if merchantId !in store {
      return Failure("Merchant not found: " + merchantId);
    }
    var merchant := store[merchantId];
    merchant.Apply(req);
    r := Success(merchant.Snapshot());
  }
}
