/** internal/domain/entities/supplier_entity.go: one line of a partner's
    billing reconciliation export, its validation tags, its constructor and
    its `Update`. */
module Suppliers {
  import opened Wrappers
  import opened Chrono
  import opened Foreign
  import opened Validation
  import opened Contracts

  /** The limit of every `max=255` tag. */
  const MaxLength: nat := 255

  /** The 55 business fields of `SupplierProps` and `SupplierEntity`, in
      declaration order. */
  datatype SupplierData = SupplierData(
    partnerId: string,
    partnerName: string,
    customerId: string,
    customerName: string,
    customerDomainName: string,
    customerCountry: string,
    mpnId: int,
    tier2MpnId: int,
    invoiceNumber: string,
    productId: string,
    skuId: string,
    availabilityId: string,
    skuName: string,
    productName: string,
    publisherName: string,
    publisherId: Option<string>,
    subscriptionDescription: Option<string>,
    subscriptionId: string,
    chargeStartDate: Instant,
    chargeEndDate: Instant,
    usageDate: Instant,
    meterType: string,
    meterCategory: string,
    meterId: string,
    meterSubCategory: string,
    meterName: string,
    meterRegion: Option<string>,
    unit: string,
    resourceLocation: string,
    consumedService: string,
    resourceGroup: string,
    resourceUri: string,
    chargeType: string,
    unitPrice: real,
    quantity: real,
    unitType: string,
    billingPreTaxTotal: real,
    billingCurrency: string,
    pricingPreTaxTotal: real,
    pricingCurrency: string,
    serviceInfo1: Option<string>,
    serviceInfo2: Option<string>,
    tags: Option<map<string, string>>,
    additionalInfo: Option<map<string, string>>,
    effectiveUnitPrice: real,
    pcToBcExchangeRate: int,
    pcToBcExchangeRateDate: Instant,
    entitlementId: string,
    entitlementDescription: string,
    partnerEarnedCreditPercentage: int,
    creditPercentage: int,
    creditType: string,
    benefitOrderId: Option<string>,
    benefitId: Option<string>,
    benefitType: Option<string>)

  /** `SupplierProps`: the business fields plus the optional identity and
      timestamps that `Init` defaults. */
  datatype SupplierProps = SupplierProps(
    id: Option<string>,
    data: SupplierData,
    createdAt: Option<Instant>,
    updatedAt: Option<Instant>,
    deletedAt: Option<Instant>)

  /** The i-th field of the struct the validator sees: each business field
      with its Go name, its value and its `validate` tag, in declaration
      order (the embedded `contracts.Entity` comes first and carries no
      tags). */
  function SupplierField(d: SupplierData, i: int): TaggedField
  {
    if i < 5 then TaggedGroup0(d, i)
    else if i < 10 then TaggedGroup1(d, i)
    else if i < 15 then TaggedGroup2(d, i)
    else if i < 20 then TaggedGroup3(d, i)
    else if i < 25 then TaggedGroup4(d, i)
    else if i < 30 then TaggedGroup5(d, i)
    else if i < 35 then TaggedGroup6(d, i)
    else if i < 40 then TaggedGroup7(d, i)
    else if i < 45 then TaggedGroup8(d, i)
    else if i < 50 then TaggedGroup9(d, i)
    else TaggedGroup10(d, i)
  }

  /** Fields 0 to 4. */
  function TaggedGroup0(d: SupplierData, i: int): TaggedField
  {
    match i
    case 0 => TaggedField("PartnerId", Text(d.partnerId), false, [Required])
    case 1 => TaggedField("PartnerName", Text(d.partnerName), false, [Required, Max(MaxLength)])
    case 2 => TaggedField("CustomerId", Text(d.customerId), false, [Required])
    case 3 => TaggedField("CustomerName", Text(d.customerName), false, [Required, Max(MaxLength)])
    case _ => TaggedField("CustomerDomainName", Text(d.customerDomainName), false, [Required, Fqdn])
  }

  /** Fields 5 to 9. */
  function TaggedGroup1(d: SupplierData, i: int): TaggedField
  {
    match i
    case 5 => TaggedField("CustomerCountry", Text(d.customerCountry), false, [Required, Max(MaxLength)])
    case 6 => TaggedField("MpnId", Whole(d.mpnId), false, [Numeric])
    case 7 => TaggedField("Tier2MpnId", Whole(d.tier2MpnId), false, [Numeric])
    case 8 => TaggedField("InvoiceNumber", Text(d.invoiceNumber), false, [Required])
    case _ => TaggedField("ProductId", Text(d.productId), false, [Required])
  }

  /** Fields 10 to 14. */
  function TaggedGroup2(d: SupplierData, i: int): TaggedField
  {
    match i
    case 10 => TaggedField("SkuId", Text(d.skuId), false, [Required])
    case 11 => TaggedField("AvailabilityId", Text(d.availabilityId), false, [Required])
    case 12 => TaggedField("SkuName", Text(d.skuName), false, [Required, Max(MaxLength)])
    case 13 => TaggedField("ProductName", Text(d.productName), false, [Required, Max(MaxLength)])
    case _ => TaggedField("PublisherName", Text(d.publisherName), false, [Required, Max(MaxLength)])
  }

  /** Fields 15 to 19. */
  function TaggedGroup3(d: SupplierData, i: int): TaggedField
  {
    match i
    case 15 => TaggedField("PublisherId", OptText(d.publisherId), true, [Max(MaxLength)])
    case 16 => TaggedField("SubscriptionDescription", OptText(d.subscriptionDescription), true, [Max(MaxLength)])
    case 17 => TaggedField("SubscriptionId", Text(d.subscriptionId), false, [Required])
    case 18 => TaggedField("ChargeStartDate", Moment(d.chargeStartDate), false, [Required])
    case _ => TaggedField("ChargeEndDate", Moment(d.chargeEndDate), false, [Required])
  }

  /** Fields 20 to 24. */
  function TaggedGroup4(d: SupplierData, i: int): TaggedField
  {
    match i
    case 20 => TaggedField("UsageDate", Moment(d.usageDate), false, [Required])
    case 21 => TaggedField("MeterType", Text(d.meterType), false, [Required, Max(MaxLength)])
    case 22 => TaggedField("MeterCategory", Text(d.meterCategory), false, [Required, Max(MaxLength)])
    case 23 => TaggedField("MeterId", Text(d.meterId), false, [Required])
    case _ => TaggedField("MeterSubCategory", Text(d.meterSubCategory), false, [Required, Max(MaxLength)])
  }

  /** Fields 25 to 29. */
  function TaggedGroup5(d: SupplierData, i: int): TaggedField
  {
    match i
    case 25 => TaggedField("MeterName", Text(d.meterName), false, [Required, Max(MaxLength)])
    case 26 => TaggedField("MeterRegion", OptText(d.meterRegion), true, [Max(MaxLength)])
    case 27 => TaggedField("Unit", Text(d.unit), false, [Required, Max(MaxLength)])
    case 28 => TaggedField("ResourceLocation", Text(d.resourceLocation), false, [Required, Max(MaxLength)])
    case _ => TaggedField("ConsumedService", Text(d.consumedService), false, [Required, Max(MaxLength)])
  }

  /** Fields 30 to 34. */
  function TaggedGroup6(d: SupplierData, i: int): TaggedField
  {
    match i
    case 30 => TaggedField("ResourceGroup", Text(d.resourceGroup), false, [Required, Max(MaxLength)])
    case 31 => TaggedField("ResourceURI", Text(d.resourceUri), false, [Required])
    case 32 => TaggedField("ChargeType", Text(d.chargeType), false, [Required, Max(MaxLength)])
    case 33 => TaggedField("UnitPrice", Decimal(d.unitPrice), false, [Numeric])
    case _ => TaggedField("Quantity", Decimal(d.quantity), false, [Numeric])
  }

  /** Fields 35 to 39. */
  function TaggedGroup7(d: SupplierData, i: int): TaggedField
  {
    match i
    case 35 => TaggedField("UnitType", Text(d.unitType), false, [Required, Max(MaxLength)])
    case 36 => TaggedField("BillingPreTaxTotal", Decimal(d.billingPreTaxTotal), false, [Numeric])
    case 37 => TaggedField("BillingCurrency", Text(d.billingCurrency), false, [Required, Max(MaxLength)])
    case 38 => TaggedField("PricingPreTaxTotal", Decimal(d.pricingPreTaxTotal), false, [Numeric])
    case _ => TaggedField("PricingCurrency", Text(d.pricingCurrency), false, [Required, Max(MaxLength)])
  }

  /** Fields 40 to 44. */
  function TaggedGroup8(d: SupplierData, i: int): TaggedField
  {
    match i
    case 40 => TaggedField("ServiceInfo1", OptText(d.serviceInfo1), true, [Max(MaxLength)])
    case 41 => TaggedField("ServiceInfo2", OptText(d.serviceInfo2), true, [Max(MaxLength)])
    case 42 => TaggedField("Tags", OptMap(d.tags), false, [])
    case 43 => TaggedField("AdditionalInfo", OptMap(d.additionalInfo), false, [])
    case _ => TaggedField("EffectiveUnitPrice", Decimal(d.effectiveUnitPrice), false, [Numeric])
  }

  /** Fields 45 to 49. */
  function TaggedGroup9(d: SupplierData, i: int): TaggedField
  {
    match i
    case 45 => TaggedField("PCToBCExchangeRate", Whole(d.pcToBcExchangeRate), false, [Numeric])
    case 46 => TaggedField("PCToBCExchangeRateDate", Moment(d.pcToBcExchangeRateDate), false, [Required])
    case 47 => TaggedField("EntitlementId", Text(d.entitlementId), false, [Required])
    case 48 => TaggedField("EntitlementDescription", Text(d.entitlementDescription), false, [Required, Max(MaxLength)])
    case _ => TaggedField("PartnerEarnedCreditPercentage", Whole(d.partnerEarnedCreditPercentage), false, [Numeric])
  }

  /** Fields 50 to 54. */
  function TaggedGroup10(d: SupplierData, i: int): TaggedField
  {
    match i
    case 50 => TaggedField("CreditPercentage", Whole(d.creditPercentage), false, [Numeric])
    case 51 => TaggedField("CreditType", Text(d.creditType), false, [Required, Max(MaxLength)])
    case 52 => TaggedField("BenefitOrderId", OptText(d.benefitOrderId), true, [Max(MaxLength)])
    case 53 => TaggedField("BenefitId", OptText(d.benefitId), true, [Max(MaxLength)])
    case _ => TaggedField("BenefitType", OptText(d.benefitType), true, [Max(MaxLength)])
  }

  /** The struct as the validator walks it. */
  function SupplierTagged(d: SupplierData): (fields: seq<TaggedField>)
    ensures |fields| == 55
    ensures forall i :: 0 <= i < 55 ==> fields[i] == SupplierField(d, i)
  {
    seq(55, i => SupplierField(d, i))
  }

  /** What the tag of the i-th field asks of it, field by field: a
      `required` text is not empty and a `required` date is not the zero
      time; `max=255` bounds the number of characters; `fqdn` is the
      library's check; an optional (`omitempty`) text is absent or bounded;
      `numeric` holds of every int and float, and the two maps carry no tag. */
  predicate FieldHolds(x: Externals, d: SupplierData, i: int)
  {
    if i < 5 then HoldsGroup0(x, d, i)
    else if i < 10 then HoldsGroup1(x, d, i)
    else if i < 15 then HoldsGroup2(x, d, i)
    else if i < 20 then HoldsGroup3(x, d, i)
    else if i < 25 then HoldsGroup4(x, d, i)
    else if i < 30 then HoldsGroup5(x, d, i)
    else if i < 35 then HoldsGroup6(x, d, i)
    else if i < 40 then HoldsGroup7(x, d, i)
    else if i < 45 then HoldsGroup8(x, d, i)
    else if i < 50 then HoldsGroup9(x, d, i)
    else HoldsGroup10(x, d, i)
  }

  /** Fields 0 to 4. */
  predicate HoldsGroup0(x: Externals, d: SupplierData, i: int)
  {
    match i
    case 0 => d.partnerId != ""
    case 1 => d.partnerName != "" && |d.partnerName| <= MaxLength
    case 2 => d.customerId != ""
    case 3 => d.customerName != "" && |d.customerName| <= MaxLength
    case _ => d.customerDomainName != "" && x.isFqdn(d.customerDomainName)
  }

  /** Fields 5 to 9. */
  predicate HoldsGroup1(x: Externals, d: SupplierData, i: int)
  {
    match i
    case 5 => d.customerCountry != "" && |d.customerCountry| <= MaxLength
    case 6 => true
    case 7 => true
    case 8 => d.invoiceNumber != ""
    case _ => d.productId != ""
  }

  /** Fields 10 to 14. */
  predicate HoldsGroup2(x: Externals, d: SupplierData, i: int)
  {
    match i
    case 10 => d.skuId != ""
    case 11 => d.availabilityId != ""
    case 12 => d.skuName != "" && |d.skuName| <= MaxLength
    case 13 => d.productName != "" && |d.productName| <= MaxLength
    case _ => d.publisherName != "" && |d.publisherName| <= MaxLength
  }

  /** Fields 15 to 19. */
  predicate HoldsGroup3(x: Externals, d: SupplierData, i: int)
  {
    match i
    case 15 => d.publisherId.None? || |d.publisherId.value| <= MaxLength
    case 16 => d.subscriptionDescription.None? || |d.subscriptionDescription.value| <= MaxLength
    case 17 => d.subscriptionId != ""
    case 18 => d.chargeStartDate != ZeroTime
    case _ => d.chargeEndDate != ZeroTime
  }

  /** Fields 20 to 24. */
  predicate HoldsGroup4(x: Externals, d: SupplierData, i: int)
  {
    match i
    case 20 => d.usageDate != ZeroTime
    case 21 => d.meterType != "" && |d.meterType| <= MaxLength
    case 22 => d.meterCategory != "" && |d.meterCategory| <= MaxLength
    case 23 => d.meterId != ""
    case _ => d.meterSubCategory != "" && |d.meterSubCategory| <= MaxLength
  }

  /** Fields 25 to 29. */
  predicate HoldsGroup5(x: Externals, d: SupplierData, i: int)
  {
    match i
    case 25 => d.meterName != "" && |d.meterName| <= MaxLength
    case 26 => d.meterRegion.None? || |d.meterRegion.value| <= MaxLength
    case 27 => d.unit != "" && |d.unit| <= MaxLength
    case 28 => d.resourceLocation != "" && |d.resourceLocation| <= MaxLength
    case _ => d.consumedService != "" && |d.consumedService| <= MaxLength
  }

  /** Fields 30 to 34. */
  predicate HoldsGroup6(x: Externals, d: SupplierData, i: int)
  {
    match i
    case 30 => d.resourceGroup != "" && |d.resourceGroup| <= MaxLength
    case 31 => d.resourceUri != ""
    case 32 => d.chargeType != "" && |d.chargeType| <= MaxLength
    case 33 => true
    case _ => true
  }

  /** Fields 35 to 39. */
  predicate HoldsGroup7(x: Externals, d: SupplierData, i: int)
  {
    match i
    case 35 => d.unitType != "" && |d.unitType| <= MaxLength
    case 36 => true
    case 37 => d.billingCurrency != "" && |d.billingCurrency| <= MaxLength
    case 38 => true
    case _ => d.pricingCurrency != "" && |d.pricingCurrency| <= MaxLength
  }

  /** Fields 40 to 44. */
  predicate HoldsGroup8(x: Externals, d: SupplierData, i: int)
  {
    match i
    case 40 => d.serviceInfo1.None? || |d.serviceInfo1.value| <= MaxLength
    case 41 => d.serviceInfo2.None? || |d.serviceInfo2.value| <= MaxLength
    case 42 => true
    case 43 => true
    case _ => true
  }

  /** Fields 45 to 49. */
  predicate HoldsGroup9(x: Externals, d: SupplierData, i: int)
  {
    match i
    case 45 => true
    case 46 => d.pcToBcExchangeRateDate != ZeroTime
    case 47 => d.entitlementId != ""
    case 48 => d.entitlementDescription != "" && |d.entitlementDescription| <= MaxLength
    case _ => true
  }

  /** Fields 50 to 54. */
  predicate HoldsGroup10(x: Externals, d: SupplierData, i: int)
  {
    match i
    case 50 => true
    case 51 => d.creditType != "" && |d.creditType| <= MaxLength
    case 52 => d.benefitOrderId.None? || |d.benefitOrderId.value| <= MaxLength
    case 53 => d.benefitId.None? || |d.benefitId.value| <= MaxLength
    case _ => d.benefitType.None? || |d.benefitType.value| <= MaxLength
  }
  lemma SupplierFieldIff0(x: Externals, d: SupplierData, i: int)
    requires 0 <= i < 5
    ensures FieldPasses(x, SupplierField(d, i)) <==> FieldHolds(x, d, i)
  {
    if i == 0 {
      var g := SupplierField(d, 0);
      assert Satisfies(x, g.rules[0], g.value) <==> d.partnerId != "";
    } else if i == 1 {
      var g := SupplierField(d, 1);
      assert Satisfies(x, g.rules[0], g.value) <==> d.partnerName != "";
      assert Satisfies(x, g.rules[1], g.value) <==> |d.partnerName| <= MaxLength;
    } else if i == 2 {
      var g := SupplierField(d, 2);
      assert Satisfies(x, g.rules[0], g.value) <==> d.customerId != "";
    } else if i == 3 {
      var g := SupplierField(d, 3);
      assert Satisfies(x, g.rules[0], g.value) <==> d.customerName != "";
      assert Satisfies(x, g.rules[1], g.value) <==> |d.customerName| <= MaxLength;
    } else {
      var g := SupplierField(d, 4);
      assert Satisfies(x, g.rules[0], g.value) <==> d.customerDomainName != "";
      assert Satisfies(x, g.rules[1], g.value) <==> x.isFqdn(d.customerDomainName);
    }
  }

  lemma SupplierFieldIff1(x: Externals, d: SupplierData, i: int)
    requires 5 <= i < 10
    ensures FieldPasses(x, SupplierField(d, i)) <==> FieldHolds(x, d, i)
  {
    if i == 5 {
      var g := SupplierField(d, 5);
      assert Satisfies(x, g.rules[0], g.value) <==> d.customerCountry != "";
      assert Satisfies(x, g.rules[1], g.value) <==> |d.customerCountry| <= MaxLength;
    } else if i == 6 {
    } else if i == 7 {
    } else if i == 8 {
      var g := SupplierField(d, 8);
      assert Satisfies(x, g.rules[0], g.value) <==> d.invoiceNumber != "";
    } else {
      var g := SupplierField(d, 9);
      assert Satisfies(x, g.rules[0], g.value) <==> d.productId != "";
    }
  }

  lemma SupplierFieldIff2(x: Externals, d: SupplierData, i: int)
    requires 10 <= i < 15
    ensures FieldPasses(x, SupplierField(d, i)) <==> FieldHolds(x, d, i)
  {
    if i == 10 {
      var g := SupplierField(d, 10);
      assert Satisfies(x, g.rules[0], g.value) <==> d.skuId != "";
    } else if i == 11 {
      var g := SupplierField(d, 11);
      assert Satisfies(x, g.rules[0], g.value) <==> d.availabilityId != "";
    } else if i == 12 {
      var g := SupplierField(d, 12);
      assert Satisfies(x, g.rules[0], g.value) <==> d.skuName != "";
      assert Satisfies(x, g.rules[1], g.value) <==> |d.skuName| <= MaxLength;
    } else if i == 13 {
      var g := SupplierField(d, 13);
      assert Satisfies(x, g.rules[0], g.value) <==> d.productName != "";
      assert Satisfies(x, g.rules[1], g.value) <==> |d.productName| <= MaxLength;
    } else {
      var g := SupplierField(d, 14);
      assert Satisfies(x, g.rules[0], g.value) <==> d.publisherName != "";
      assert Satisfies(x, g.rules[1], g.value) <==> |d.publisherName| <= MaxLength;
    }
  }

  lemma SupplierFieldIff3(x: Externals, d: SupplierData, i: int)
    requires 15 <= i < 20
    ensures FieldPasses(x, SupplierField(d, i)) <==> FieldHolds(x, d, i)
  {
    if i == 15 {
      var g := SupplierField(d, 15);
      assert d.publisherId.Some? ==> (Satisfies(x, g.rules[0], g.value) <==> |d.publisherId.value| <= MaxLength);
    } else if i == 16 {
      var g := SupplierField(d, 16);
      assert d.subscriptionDescription.Some? ==> (Satisfies(x, g.rules[0], g.value) <==> |d.subscriptionDescription.value| <= MaxLength);
    } else if i == 17 {
      var g := SupplierField(d, 17);
      assert Satisfies(x, g.rules[0], g.value) <==> d.subscriptionId != "";
    } else if i == 18 {
      var g := SupplierField(d, 18);
      assert Satisfies(x, g.rules[0], g.value) <==> d.chargeStartDate != ZeroTime;
    } else {
      var g := SupplierField(d, 19);
      assert Satisfies(x, g.rules[0], g.value) <==> d.chargeEndDate != ZeroTime;
    }
  }

  lemma SupplierFieldIff4(x: Externals, d: SupplierData, i: int)
    requires 20 <= i < 25
    ensures FieldPasses(x, SupplierField(d, i)) <==> FieldHolds(x, d, i)
  {
    if i == 20 {
      var g := SupplierField(d, 20);
      assert Satisfies(x, g.rules[0], g.value) <==> d.usageDate != ZeroTime;
    } else if i == 21 {
      var g := SupplierField(d, 21);
      assert Satisfies(x, g.rules[0], g.value) <==> d.meterType != "";
      assert Satisfies(x, g.rules[1], g.value) <==> |d.meterType| <= MaxLength;
    } else if i == 22 {
      var g := SupplierField(d, 22);
      assert Satisfies(x, g.rules[0], g.value) <==> d.meterCategory != "";
      assert Satisfies(x, g.rules[1], g.value) <==> |d.meterCategory| <= MaxLength;
    } else if i == 23 {
      var g := SupplierField(d, 23);
      assert Satisfies(x, g.rules[0], g.value) <==> d.meterId != "";
    } else {
      var g := SupplierField(d, 24);
      assert Satisfies(x, g.rules[0], g.value) <==> d.meterSubCategory != "";
      assert Satisfies(x, g.rules[1], g.value) <==> |d.meterSubCategory| <= MaxLength;
    }
  }

  lemma SupplierFieldIff5(x: Externals, d: SupplierData, i: int)
    requires 25 <= i < 30
    ensures FieldPasses(x, SupplierField(d, i)) <==> FieldHolds(x, d, i)
  {
    if i == 25 {
      var g := SupplierField(d, 25);
      assert Satisfies(x, g.rules[0], g.value) <==> d.meterName != "";
      assert Satisfies(x, g.rules[1], g.value) <==> |d.meterName| <= MaxLength;
    } else if i == 26 {
      var g := SupplierField(d, 26);
      assert d.meterRegion.Some? ==> (Satisfies(x, g.rules[0], g.value) <==> |d.meterRegion.value| <= MaxLength);
    } else if i == 27 {
      var g := SupplierField(d, 27);
      assert Satisfies(x, g.rules[0], g.value) <==> d.unit != "";
      assert Satisfies(x, g.rules[1], g.value) <==> |d.unit| <= MaxLength;
    } else if i == 28 {
      var g := SupplierField(d, 28);
      assert Satisfies(x, g.rules[0], g.value) <==> d.resourceLocation != "";
      assert Satisfies(x, g.rules[1], g.value) <==> |d.resourceLocation| <= MaxLength;
    } else {
      var g := SupplierField(d, 29);
      assert Satisfies(x, g.rules[0], g.value) <==> d.consumedService != "";
      assert Satisfies(x, g.rules[1], g.value) <==> |d.consumedService| <= MaxLength;
    }
  }

  lemma SupplierFieldIff6(x: Externals, d: SupplierData, i: int)
    requires 30 <= i < 35
    ensures FieldPasses(x, SupplierField(d, i)) <==> FieldHolds(x, d, i)
  {
    if i == 30 {
      var g := SupplierField(d, 30);
      assert Satisfies(x, g.rules[0], g.value) <==> d.resourceGroup != "";
      assert Satisfies(x, g.rules[1], g.value) <==> |d.resourceGroup| <= MaxLength;
    } else if i == 31 {
      var g := SupplierField(d, 31);
      assert Satisfies(x, g.rules[0], g.value) <==> d.resourceUri != "";
    } else if i == 32 {
      var g := SupplierField(d, 32);
      assert Satisfies(x, g.rules[0], g.value) <==> d.chargeType != "";
      assert Satisfies(x, g.rules[1], g.value) <==> |d.chargeType| <= MaxLength;
    } else if i == 33 {
    } else {
    }
  }

  lemma SupplierFieldIff7(x: Externals, d: SupplierData, i: int)
    requires 35 <= i < 40
    ensures FieldPasses(x, SupplierField(d, i)) <==> FieldHolds(x, d, i)
  {
    if i == 35 {
      var g := SupplierField(d, 35);
      assert Satisfies(x, g.rules[0], g.value) <==> d.unitType != "";
      assert Satisfies(x, g.rules[1], g.value) <==> |d.unitType| <= MaxLength;
    } else if i == 36 {
    } else if i == 37 {
      var g := SupplierField(d, 37);
      assert Satisfies(x, g.rules[0], g.value) <==> d.billingCurrency != "";
      assert Satisfies(x, g.rules[1], g.value) <==> |d.billingCurrency| <= MaxLength;
    } else if i == 38 {
    } else {
      var g := SupplierField(d, 39);
      assert Satisfies(x, g.rules[0], g.value) <==> d.pricingCurrency != "";
      assert Satisfies(x, g.rules[1], g.value) <==> |d.pricingCurrency| <= MaxLength;
    }
  }

  lemma SupplierFieldIff8(x: Externals, d: SupplierData, i: int)
    requires 40 <= i < 45
    ensures FieldPasses(x, SupplierField(d, i)) <==> FieldHolds(x, d, i)
  {
    if i == 40 {
      var g := SupplierField(d, 40);
      assert d.serviceInfo1.Some? ==> (Satisfies(x, g.rules[0], g.value) <==> |d.serviceInfo1.value| <= MaxLength);
    } else if i == 41 {
      var g := SupplierField(d, 41);
      assert d.serviceInfo2.Some? ==> (Satisfies(x, g.rules[0], g.value) <==> |d.serviceInfo2.value| <= MaxLength);
    } else if i == 42 {
    } else if i == 43 {
    } else {
    }
  }

  lemma SupplierFieldIff9(x: Externals, d: SupplierData, i: int)
    requires 45 <= i < 50
    ensures FieldPasses(x, SupplierField(d, i)) <==> FieldHolds(x, d, i)
  {
    if i == 45 {
    } else if i == 46 {
      var g := SupplierField(d, 46);
      assert Satisfies(x, g.rules[0], g.value) <==> d.pcToBcExchangeRateDate != ZeroTime;
    } else if i == 47 {
      var g := SupplierField(d, 47);
      assert Satisfies(x, g.rules[0], g.value) <==> d.entitlementId != "";
    } else if i == 48 {
      var g := SupplierField(d, 48);
      assert Satisfies(x, g.rules[0], g.value) <==> d.entitlementDescription != "";
      assert Satisfies(x, g.rules[1], g.value) <==> |d.entitlementDescription| <= MaxLength;
    } else {
    }
  }

  lemma SupplierFieldIff10(x: Externals, d: SupplierData, i: int)
    requires 50 <= i < 55
    ensures FieldPasses(x, SupplierField(d, i)) <==> FieldHolds(x, d, i)
  {
    if i == 50 {
    } else if i == 51 {
      var g := SupplierField(d, 51);
      assert Satisfies(x, g.rules[0], g.value) <==> d.creditType != "";
      assert Satisfies(x, g.rules[1], g.value) <==> |d.creditType| <= MaxLength;
    } else if i == 52 {
      var g := SupplierField(d, 52);
      assert d.benefitOrderId.Some? ==> (Satisfies(x, g.rules[0], g.value) <==> |d.benefitOrderId.value| <= MaxLength);
    } else if i == 53 {
      var g := SupplierField(d, 53);
      assert d.benefitId.Some? ==> (Satisfies(x, g.rules[0], g.value) <==> |d.benefitId.value| <= MaxLength);
    } else {
      var g := SupplierField(d, 54);
      assert d.benefitType.Some? ==> (Satisfies(x, g.rules[0], g.value) <==> |d.benefitType.value| <= MaxLength);
    }
  }

  /** The validator's verdict on one field is what its tag asks. */
  lemma SupplierFieldIff(x: Externals, d: SupplierData, i: int)
    requires 0 <= i < 55
    ensures FieldPasses(x, SupplierField(d, i)) <==> FieldHolds(x, d, i)
  {
    if i < 5 { SupplierFieldIff0(x, d, i); } else if i < 10 { SupplierFieldIff1(x, d, i); } else if i < 15 { SupplierFieldIff2(x, d, i); } else if i < 20 { SupplierFieldIff3(x, d, i); } else if i < 25 { SupplierFieldIff4(x, d, i); } else if i < 30 { SupplierFieldIff5(x, d, i); } else if i < 35 { SupplierFieldIff6(x, d, i); } else if i < 40 { SupplierFieldIff7(x, d, i); } else if i < 45 { SupplierFieldIff8(x, d, i); } else if i < 50 { SupplierFieldIff9(x, d, i); } else { SupplierFieldIff10(x, d, i); }
  }

  /** The validator accepts a supplier exactly when every field's tag holds. */
  lemma SupplierValidIff(x: Externals, d: SupplierData)
    ensures ValidateStruct(x, SupplierTagged(d)) == [] <==> forall i :: 0 <= i < 55 ==> FieldHolds(x, d, i)
  {
    var f := SupplierTagged(d);
    ValidateStructPasses(x, f);
    forall i | 0 <= i < 55
      ensures FieldPasses(x, f[i]) <==> FieldHolds(x, d, i)
    {
      SupplierFieldIff(x, d, i);
    }
  }

  /** PartnerId is declared first, so a supplier without one is reported
      on that field, with the `required` tag, whatever else is wrong. */
  lemma MissingPartnerIdFirst(x: Externals, d: SupplierData)
    requires d.partnerId == ""
    ensures var errs := ValidateStruct(x, SupplierTagged(d));
      errs != [] && errs[0] == FieldError("PartnerId", "required", "")
  {
    var f := SupplierTagged(d);
    assert f[0] == SupplierField(d, 0);
    ValidateStructFirst(x, f, 0);
  }

  /** `NewSupplierEntity` as a function: the props copied, `Init` applied,
      then the validator's errors when there are any. */
  function NewSupplier(x: Externals, props: SupplierProps, now: Instant, generatedId: string): Result<SupplierRecord, seq<FieldError>>
  {
    var errs := ValidateStruct(x, SupplierTagged(props.data));
    if errs != [] then Failure(errs)
    else Success(SupplierRecord(InitFields(props.id, props.createdAt, props.updatedAt, props.deletedAt, now, generatedId), props.data))
  }

  /** NewSupplierEntity fails exactly when the tags do not hold, and then
      with the first failing field first; otherwise every business field is
      the prop of the same name. */
  lemma NewSupplierOutcome(x: Externals, props: SupplierProps, now: Instant, generatedId: string)
    ensures var r := NewSupplier(x, props, now, generatedId);
      && (r.Failure? <==> !(forall i :: 0 <= i < 55 ==> FieldHolds(x, props.data, i)))
      && (r.Failure? ==> r.error != [] && r.error == ValidateStruct(x, SupplierTagged(props.data)))
      && (r.Success? ==>
            && r.value.data == props.data
            && r.value.entity == InitFields(props.id, props.createdAt, props.updatedAt, props.deletedAt, now, generatedId))
  {
    SupplierValidIff(x, props.data);
  }

  /** A supplier entity as stored: the `Entity` part and the business part. */
  datatype SupplierRecord = SupplierRecord(entity: EntityFields, data: SupplierData)

  /** `SupplierEntity`: an `Entity` and the 55 business fields, held as one
      `SupplierData` value because both the constructor and `Update` write
      all of them together. */
  class SupplierEntity {
    const base: Entity
    var data: SupplierData

    function Record(): SupplierRecord
      reads this, base
    {
      SupplierRecord(base.Fields(), data)
    }

    /** The struct literal of `NewSupplierEntity`: every business field
        copied from the props, around an entity part. */
    constructor (d: SupplierData, base: Entity)
      ensures data == d && this.base == base
    {
      this.base := base;
      data := d;
    }

    /** `Update`: overwrites every business field, sets UpdatedAt to now and
        then validates. The id and the creation and deletion times are kept,
        and a rejected update keeps the new values. */
    method Update(x: Externals, props: SupplierProps, now: Instant) returns (errs: seq<FieldError>)
      modifies this, base
      ensures data == props.data
      ensures base.id == old(base.id) && base.createdAt == old(base.createdAt) && base.deletedAt == old(base.deletedAt)
      ensures base.updatedAt == now
      ensures errs == ValidateStruct(x, SupplierTagged(props.data))
    {
      data := props.data;
      base.updatedAt := now;
      errs := ValidateStruct(x, SupplierTagged(data));
    }
  }

  /** `NewSupplierEntity`: builds the entity, runs `Init`, validates, and
      hands the entity back only when it is valid. */
  method NewSupplierEntity(x: Externals, props: SupplierProps, now: Instant, generatedId: string)
    returns (r: Result<SupplierEntity, seq<FieldError>>)
    ensures r.Success? <==> NewSupplier(x, props, now, generatedId).Success?
    ensures r.Success? ==> fresh(r.value) && fresh(r.value.base) && r.value.Record() == NewSupplier(x, props, now, generatedId).value
    ensures r.Failure? ==> r.error == NewSupplier(x, props, now, generatedId).error
  {
    var base := new Entity();
    var entity := new SupplierEntity(props.data, base);
    base.Init(props.id, props.createdAt, props.updatedAt, props.deletedAt, now, generatedId);
    var errs := ValidateStruct(x, SupplierTagged(entity.data));
    if errs != [] {
      return Failure(errs);
    }
    return Success(entity);
  }
}
