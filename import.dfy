/** internal/application/usecases/supplier/import_suppliers_usecase.go: the
    import of a partner's billing export. The file is opened and parsed into
    rows; the first row is the header; every later row is mapped to
    `SupplierProps`, validated by `NewSupplierEntity`, and the valid ones are
    written to the repository in batches of at most 1000. Whatever goes
    wrong first is reported, as a bad request, once every row is handled.

    The use case runs one worker per CPU over a channel of rows; this model
    runs one worker, which handles the rows in file order. */
module ImportSuppliers {
  import opened Wrappers
  import opened Chrono
  import opened Foreign
  import opened Text
  import opened Validation
  import opened Utils
  import opened Suppliers
  import opened AppErrors
  import opened XlsxParser

  /** `maxBatchSize`: the most entities one `CreateMany` call receives. */
  const MaxBatchSize: nat := 1000

  const OpenFailedText := "Falha ao abrir o arquivo."
  const ParseFailedText := "Falha ao analisar o XML da planilha."
  const EmptySheetText := "Planilha vazia ou sem dados."

  /** The two report formats, cut around their verbs. */
  const ValidationPrefix := "Erro de validação no campo: '"
  const ValidationMiddle := "', rule "
  const ValidationFormat := ValidationPrefix + (Verb + (ValidationMiddle + (Verb + "")))
  const ImportPrefix := "Erro de importação: "
  const ImportFormat := ImportPrefix + (ValueVerb + "")

  /** How the worker converts the text of a cell before it becomes a field
      of the props. */
  datatype Converter = AsText | AsOptText | AsInt | AsFloat | AsDate | AsMap

  /** The converter the worker applies to each column: `ToInt` to columns
      6, 7, 45, 49, 50, `ToFloat` to 33, 34, 36, 38, 44, `ToDate` to 18, 19, 20, 46,
      `ToStringPtr` to 15, 16, 26, 40, 41, 52, 53, 54, `ToMapPtr` to 42, 43,
      and the bare cell text everywhere else. */
  function ColumnConverter(i: int): Converter
  {
    if i in {6, 7, 45, 49, 50} then AsInt
    else if i in {33, 34, 36, 38, 44} then AsFloat
    else if i in {18, 19, 20, 46} then AsDate
    else if i in {15, 16, 26, 40, 41, 52, 53, 54} then AsOptText
    else if i in {42, 43} then AsMap
    else AsText
  }

  /** The field value a converter makes of a cell's text. */
  function Convert(x: Externals, c: Converter, s: string): FieldValue
  {
    match c
    case AsText => Text(s)
    case AsOptText => OptText(ToStringPtr(s))
    case AsInt => Whole(ToInt(s))
    case AsFloat => Decimal(ToFloat(x, s))
    case AsDate => Moment(ToDate(x, s))
    case AsMap => OptMap(ToMapPtr(x, s))
  }

  /** The `SupplierProps` literal the worker builds from one data row: no id
      and no timestamps, and column k converted into the k-th business
      field; `Safe` reads a missing cell as "". */
  function MapRow(x: Externals, row: seq<string>): SupplierProps
  {
    SupplierProps(None, SupplierData(
      Safe(row, 0),
      Safe(row, 1),
      Safe(row, 2),
      Safe(row, 3),
      Safe(row, 4),
      Safe(row, 5),
      ToInt(Safe(row, 6)),
      ToInt(Safe(row, 7)),
      Safe(row, 8),
      Safe(row, 9),
      Safe(row, 10),
      Safe(row, 11),
      Safe(row, 12),
      Safe(row, 13),
      Safe(row, 14),
      ToStringPtr(Safe(row, 15)),
      ToStringPtr(Safe(row, 16)),
      Safe(row, 17),
      ToDate(x, Safe(row, 18)),
      ToDate(x, Safe(row, 19)),
      ToDate(x, Safe(row, 20)),
      Safe(row, 21),
      Safe(row, 22),
      Safe(row, 23),
      Safe(row, 24),
      Safe(row, 25),
      ToStringPtr(Safe(row, 26)),
      Safe(row, 27),
      Safe(row, 28),
      Safe(row, 29),
      Safe(row, 30),
      Safe(row, 31),
      Safe(row, 32),
      ToFloat(x, Safe(row, 33)),
      ToFloat(x, Safe(row, 34)),
      Safe(row, 35),
      ToFloat(x, Safe(row, 36)),
      Safe(row, 37),
      ToFloat(x, Safe(row, 38)),
      Safe(row, 39),
      ToStringPtr(Safe(row, 40)),
      ToStringPtr(Safe(row, 41)),
      ToMapPtr(x, Safe(row, 42)),
      ToMapPtr(x, Safe(row, 43)),
      ToFloat(x, Safe(row, 44)),
      ToInt(Safe(row, 45)),
      ToDate(x, Safe(row, 46)),
      Safe(row, 47),
      Safe(row, 48),
      ToInt(Safe(row, 49)),
      ToInt(Safe(row, 50)),
      Safe(row, 51),
      ToStringPtr(Safe(row, 52)),
      ToStringPtr(Safe(row, 53)),
      ToStringPtr(Safe(row, 54))),
      None, None, None)
  }

  lemma MapRowColumn0(x: Externals, row: seq<string>)
    ensures SupplierField(MapRow(x, row).data, 0).value == Convert(x, ColumnConverter(0), Safe(row, 0))
  {
    assert ColumnConverter(0) == AsText;
    assert Convert(x, AsText, Safe(row, 0)) == Text(Safe(row, 0));
    var d := MapRow(x, row).data;
    assert d.partnerId == Safe(row, 0);
    assert SupplierField(d, 0).value == Text(d.partnerId);
  }

  lemma MapRowColumn1(x: Externals, row: seq<string>)
    ensures SupplierField(MapRow(x, row).data, 1).value == Convert(x, ColumnConverter(1), Safe(row, 1))
  {
    assert ColumnConverter(1) == AsText;
    assert Convert(x, AsText, Safe(row, 1)) == Text(Safe(row, 1));
    var d := MapRow(x, row).data;
    assert d.partnerName == Safe(row, 1);
    assert SupplierField(d, 1).value == Text(d.partnerName);
  }

  lemma MapRowColumn2(x: Externals, row: seq<string>)
    ensures SupplierField(MapRow(x, row).data, 2).value == Convert(x, ColumnConverter(2), Safe(row, 2))
  {
    assert ColumnConverter(2) == AsText;
    assert Convert(x, AsText, Safe(row, 2)) == Text(Safe(row, 2));
    var d := MapRow(x, row).data;
    assert d.customerId == Safe(row, 2);
    assert SupplierField(d, 2).value == Text(d.customerId);
  }

  lemma MapRowColumn3(x: Externals, row: seq<string>)
    ensures SupplierField(MapRow(x, row).data, 3).value == Convert(x, ColumnConverter(3), Safe(row, 3))
  {
    assert ColumnConverter(3) == AsText;
    assert Convert(x, AsText, Safe(row, 3)) == Text(Safe(row, 3));
    var d := MapRow(x, row).data;
    assert d.customerName == Safe(row, 3);
    assert SupplierField(d, 3).value == Text(d.customerName);
  }

  lemma MapRowColumn4(x: Externals, row: seq<string>)
    ensures SupplierField(MapRow(x, row).data, 4).value == Convert(x, ColumnConverter(4), Safe(row, 4))
  {
    assert ColumnConverter(4) == AsText;
    assert Convert(x, AsText, Safe(row, 4)) == Text(Safe(row, 4));
    var d := MapRow(x, row).data;
    assert d.customerDomainName == Safe(row, 4);
    assert SupplierField(d, 4).value == Text(d.customerDomainName);
  }

  lemma MapRowColumn5(x: Externals, row: seq<string>)
    ensures SupplierField(MapRow(x, row).data, 5).value == Convert(x, ColumnConverter(5), Safe(row, 5))
  {
    assert ColumnConverter(5) == AsText;
    assert Convert(x, AsText, Safe(row, 5)) == Text(Safe(row, 5));
    var d := MapRow(x, row).data;
    assert d.customerCountry == Safe(row, 5);
    assert SupplierField(d, 5).value == Text(d.customerCountry);
  }

  lemma MapRowColumn6(x: Externals, row: seq<string>)
    ensures SupplierField(MapRow(x, row).data, 6).value == Convert(x, ColumnConverter(6), Safe(row, 6))
  {
    assert ColumnConverter(6) == AsInt;
    assert Convert(x, AsInt, Safe(row, 6)) == Whole(ToInt(Safe(row, 6)));
    var d := MapRow(x, row).data;
    assert d.mpnId == ToInt(Safe(row, 6));
    assert SupplierField(d, 6).value == Whole(d.mpnId);
  }

  lemma MapRowColumn7(x: Externals, row: seq<string>)
    ensures SupplierField(MapRow(x, row).data, 7).value == Convert(x, ColumnConverter(7), Safe(row, 7))
  {
    assert ColumnConverter(7) == AsInt;
    assert Convert(x, AsInt, Safe(row, 7)) == Whole(ToInt(Safe(row, 7)));
    var d := MapRow(x, row).data;
    assert d.tier2MpnId == ToInt(Safe(row, 7));
    assert SupplierField(d, 7).value == Whole(d.tier2MpnId);
  }

  lemma MapRowColumn8(x: Externals, row: seq<string>)
    ensures SupplierField(MapRow(x, row).data, 8).value == Convert(x, ColumnConverter(8), Safe(row, 8))
  {
    assert ColumnConverter(8) == AsText;
    assert Convert(x, AsText, Safe(row, 8)) == Text(Safe(row, 8));
    var d := MapRow(x, row).data;
    assert d.invoiceNumber == Safe(row, 8);
    assert SupplierField(d, 8).value == Text(d.invoiceNumber);
  }

  lemma MapRowColumn9(x: Externals, row: seq<string>)
    ensures SupplierField(MapRow(x, row).data, 9).value == Convert(x, ColumnConverter(9), Safe(row, 9))
  {
    assert ColumnConverter(9) == AsText;
    assert Convert(x, AsText, Safe(row, 9)) == Text(Safe(row, 9));
    var d := MapRow(x, row).data;
    assert d.productId == Safe(row, 9);
    assert SupplierField(d, 9).value == Text(d.productId);
  }

  lemma MapRowColumn10(x: Externals, row: seq<string>)
    ensures SupplierField(MapRow(x, row).data, 10).value == Convert(x, ColumnConverter(10), Safe(row, 10))
  {
    assert ColumnConverter(10) == AsText;
    assert Convert(x, AsText, Safe(row, 10)) == Text(Safe(row, 10));
    var d := MapRow(x, row).data;
    assert d.skuId == Safe(row, 10);
    assert SupplierField(d, 10).value == Text(d.skuId);
  }

  lemma MapRowColumn11(x: Externals, row: seq<string>)
    ensures SupplierField(MapRow(x, row).data, 11).value == Convert(x, ColumnConverter(11), Safe(row, 11))
  {
    assert ColumnConverter(11) == AsText;
    assert Convert(x, AsText, Safe(row, 11)) == Text(Safe(row, 11));
    var d := MapRow(x, row).data;
    assert d.availabilityId == Safe(row, 11);
    assert SupplierField(d, 11).value == Text(d.availabilityId);
  }

  lemma MapRowColumn12(x: Externals, row: seq<string>)
    ensures SupplierField(MapRow(x, row).data, 12).value == Convert(x, ColumnConverter(12), Safe(row, 12))
  {
    assert ColumnConverter(12) == AsText;
    assert Convert(x, AsText, Safe(row, 12)) == Text(Safe(row, 12));
    var d := MapRow(x, row).data;
    assert d.skuName == Safe(row, 12);
    assert SupplierField(d, 12).value == Text(d.skuName);
  }

  lemma MapRowColumn13(x: Externals, row: seq<string>)
    ensures SupplierField(MapRow(x, row).data, 13).value == Convert(x, ColumnConverter(13), Safe(row, 13))
  {
    assert ColumnConverter(13) == AsText;
    assert Convert(x, AsText, Safe(row, 13)) == Text(Safe(row, 13));
    var d := MapRow(x, row).data;
    assert d.productName == Safe(row, 13);
    assert SupplierField(d, 13).value == Text(d.productName);
  }

  lemma MapRowColumn14(x: Externals, row: seq<string>)
    ensures SupplierField(MapRow(x, row).data, 14).value == Convert(x, ColumnConverter(14), Safe(row, 14))
  {
    assert ColumnConverter(14) == AsText;
    assert Convert(x, AsText, Safe(row, 14)) == Text(Safe(row, 14));
    var d := MapRow(x, row).data;
    assert d.publisherName == Safe(row, 14);
    assert SupplierField(d, 14).value == Text(d.publisherName);
  }

  lemma MapRowColumn15(x: Externals, row: seq<string>)
    ensures SupplierField(MapRow(x, row).data, 15).value == Convert(x, ColumnConverter(15), Safe(row, 15))
  {
    assert ColumnConverter(15) == AsOptText;
    assert Convert(x, AsOptText, Safe(row, 15)) == OptText(ToStringPtr(Safe(row, 15)));
    var d := MapRow(x, row).data;
    assert d.publisherId == ToStringPtr(Safe(row, 15));
    assert SupplierField(d, 15).value == OptText(d.publisherId);
  }

  lemma MapRowColumn16(x: Externals, row: seq<string>)
    ensures SupplierField(MapRow(x, row).data, 16).value == Convert(x, ColumnConverter(16), Safe(row, 16))
  {
    assert ColumnConverter(16) == AsOptText;
    assert Convert(x, AsOptText, Safe(row, 16)) == OptText(ToStringPtr(Safe(row, 16)));
    var d := MapRow(x, row).data;
    assert d.subscriptionDescription == ToStringPtr(Safe(row, 16));
    assert SupplierField(d, 16).value == OptText(d.subscriptionDescription);
  }

  lemma MapRowColumn17(x: Externals, row: seq<string>)
    ensures SupplierField(MapRow(x, row).data, 17).value == Convert(x, ColumnConverter(17), Safe(row, 17))
  {
    assert ColumnConverter(17) == AsText;
    assert Convert(x, AsText, Safe(row, 17)) == Text(Safe(row, 17));
    var d := MapRow(x, row).data;
    assert d.subscriptionId == Safe(row, 17);
    assert SupplierField(d, 17).value == Text(d.subscriptionId);
  }

  lemma MapRowColumn18(x: Externals, row: seq<string>)
    ensures SupplierField(MapRow(x, row).data, 18).value == Convert(x, ColumnConverter(18), Safe(row, 18))
  {
    assert ColumnConverter(18) == AsDate;
    assert Convert(x, AsDate, Safe(row, 18)) == Moment(ToDate(x, Safe(row, 18)));
    var d := MapRow(x, row).data;
    assert d.chargeStartDate == ToDate(x, Safe(row, 18));
    assert SupplierField(d, 18).value == Moment(d.chargeStartDate);
  }

  lemma MapRowColumn19(x: Externals, row: seq<string>)
    ensures SupplierField(MapRow(x, row).data, 19).value == Convert(x, ColumnConverter(19), Safe(row, 19))
  {
    assert ColumnConverter(19) == AsDate;
    assert Convert(x, AsDate, Safe(row, 19)) == Moment(ToDate(x, Safe(row, 19)));
    var d := MapRow(x, row).data;
    assert d.chargeEndDate == ToDate(x, Safe(row, 19));
    assert SupplierField(d, 19).value == Moment(d.chargeEndDate);
  }

  lemma MapRowColumn20(x: Externals, row: seq<string>)
    ensures SupplierField(MapRow(x, row).data, 20).value == Convert(x, ColumnConverter(20), Safe(row, 20))
  {
    assert ColumnConverter(20) == AsDate;
    assert Convert(x, AsDate, Safe(row, 20)) == Moment(ToDate(x, Safe(row, 20)));
    var d := MapRow(x, row).data;
    assert d.usageDate == ToDate(x, Safe(row, 20));
    assert SupplierField(d, 20).value == Moment(d.usageDate);
  }

  lemma MapRowColumn21(x: Externals, row: seq<string>)
    ensures SupplierField(MapRow(x, row).data, 21).value == Convert(x, ColumnConverter(21), Safe(row, 21))
  {
    assert ColumnConverter(21) == AsText;
    assert Convert(x, AsText, Safe(row, 21)) == Text(Safe(row, 21));
    var d := MapRow(x, row).data;
    assert d.meterType == Safe(row, 21);
    assert SupplierField(d, 21).value == Text(d.meterType);
  }

  lemma MapRowColumn22(x: Externals, row: seq<string>)
    ensures SupplierField(MapRow(x, row).data, 22).value == Convert(x, ColumnConverter(22), Safe(row, 22))
  {
    assert ColumnConverter(22) == AsText;
    assert Convert(x, AsText, Safe(row, 22)) == Text(Safe(row, 22));
    var d := MapRow(x, row).data;
    assert d.meterCategory == Safe(row, 22);
    assert SupplierField(d, 22).value == Text(d.meterCategory);
  }

  lemma MapRowColumn23(x: Externals, row: seq<string>)
    ensures SupplierField(MapRow(x, row).data, 23).value == Convert(x, ColumnConverter(23), Safe(row, 23))
  {
    assert ColumnConverter(23) == AsText;
    assert Convert(x, AsText, Safe(row, 23)) == Text(Safe(row, 23));
    var d := MapRow(x, row).data;
    assert d.meterId == Safe(row, 23);
    assert SupplierField(d, 23).value == Text(d.meterId);
  }

  lemma MapRowColumn24(x: Externals, row: seq<string>)
    ensures SupplierField(MapRow(x, row).data, 24).value == Convert(x, ColumnConverter(24), Safe(row, 24))
  {
    assert ColumnConverter(24) == AsText;
    assert Convert(x, AsText, Safe(row, 24)) == Text(Safe(row, 24));
    var d := MapRow(x, row).data;
    assert d.meterSubCategory == Safe(row, 24);
    assert SupplierField(d, 24).value == Text(d.meterSubCategory);
  }

  lemma MapRowColumn25(x: Externals, row: seq<string>)
    ensures SupplierField(MapRow(x, row).data, 25).value == Convert(x, ColumnConverter(25), Safe(row, 25))
  {
    assert ColumnConverter(25) == AsText;
    assert Convert(x, AsText, Safe(row, 25)) == Text(Safe(row, 25));
    var d := MapRow(x, row).data;
    assert d.meterName == Safe(row, 25);
    assert SupplierField(d, 25).value == Text(d.meterName);
  }

  lemma MapRowColumn26(x: Externals, row: seq<string>)
    ensures SupplierField(MapRow(x, row).data, 26).value == Convert(x, ColumnConverter(26), Safe(row, 26))
  {
    assert ColumnConverter(26) == AsOptText;
    assert Convert(x, AsOptText, Safe(row, 26)) == OptText(ToStringPtr(Safe(row, 26)));
    var d := MapRow(x, row).data;
    assert d.meterRegion == ToStringPtr(Safe(row, 26));
    assert SupplierField(d, 26).value == OptText(d.meterRegion);
  }

  lemma MapRowColumn27(x: Externals, row: seq<string>)
    ensures SupplierField(MapRow(x, row).data, 27).value == Convert(x, ColumnConverter(27), Safe(row, 27))
  {
    assert ColumnConverter(27) == AsText;
    assert Convert(x, AsText, Safe(row, 27)) == Text(Safe(row, 27));
    var d := MapRow(x, row).data;
    assert d.unit == Safe(row, 27);
    assert SupplierField(d, 27).value == Text(d.unit);
  }

  lemma MapRowColumn28(x: Externals, row: seq<string>)
    ensures SupplierField(MapRow(x, row).data, 28).value == Convert(x, ColumnConverter(28), Safe(row, 28))
  {
    assert ColumnConverter(28) == AsText;
    assert Convert(x, AsText, Safe(row, 28)) == Text(Safe(row, 28));
    var d := MapRow(x, row).data;
    assert d.resourceLocation == Safe(row, 28);
    assert SupplierField(d, 28).value == Text(d.resourceLocation);
  }

  lemma MapRowColumn29(x: Externals, row: seq<string>)
    ensures SupplierField(MapRow(x, row).data, 29).value == Convert(x, ColumnConverter(29), Safe(row, 29))
  {
    assert ColumnConverter(29) == AsText;
    assert Convert(x, AsText, Safe(row, 29)) == Text(Safe(row, 29));
    var d := MapRow(x, row).data;
    assert d.consumedService == Safe(row, 29);
    assert SupplierField(d, 29).value == Text(d.consumedService);
  }

  lemma MapRowColumn30(x: Externals, row: seq<string>)
    ensures SupplierField(MapRow(x, row).data, 30).value == Convert(x, ColumnConverter(30), Safe(row, 30))
  {
    assert ColumnConverter(30) == AsText;
    assert Convert(x, AsText, Safe(row, 30)) == Text(Safe(row, 30));
    var d := MapRow(x, row).data;
    assert d.resourceGroup == Safe(row, 30);
    assert SupplierField(d, 30).value == Text(d.resourceGroup);
  }

  lemma MapRowColumn31(x: Externals, row: seq<string>)
    ensures SupplierField(MapRow(x, row).data, 31).value == Convert(x, ColumnConverter(31), Safe(row, 31))
  {
    assert ColumnConverter(31) == AsText;
    assert Convert(x, AsText, Safe(row, 31)) == Text(Safe(row, 31));
    var d := MapRow(x, row).data;
    assert d.resourceUri == Safe(row, 31);
    assert SupplierField(d, 31).value == Text(d.resourceUri);
  }

  lemma MapRowColumn32(x: Externals, row: seq<string>)
    ensures SupplierField(MapRow(x, row).data, 32).value == Convert(x, ColumnConverter(32), Safe(row, 32))
  {
    assert ColumnConverter(32) == AsText;
    assert Convert(x, AsText, Safe(row, 32)) == Text(Safe(row, 32));
    var d := MapRow(x, row).data;
    assert d.chargeType == Safe(row, 32);
    assert SupplierField(d, 32).value == Text(d.chargeType);
  }

  lemma MapRowColumn33(x: Externals, row: seq<string>)
    ensures SupplierField(MapRow(x, row).data, 33).value == Convert(x, ColumnConverter(33), Safe(row, 33))
  {
    assert ColumnConverter(33) == AsFloat;
    assert Convert(x, AsFloat, Safe(row, 33)) == Decimal(ToFloat(x, Safe(row, 33)));
    var d := MapRow(x, row).data;
    assert d.unitPrice == ToFloat(x, Safe(row, 33));
    assert SupplierField(d, 33).value == Decimal(d.unitPrice);
  }

  lemma MapRowColumn34(x: Externals, row: seq<string>)
    ensures SupplierField(MapRow(x, row).data, 34).value == Convert(x, ColumnConverter(34), Safe(row, 34))
  {
    assert ColumnConverter(34) == AsFloat;
    assert Convert(x, AsFloat, Safe(row, 34)) == Decimal(ToFloat(x, Safe(row, 34)));
    var d := MapRow(x, row).data;
    assert d.quantity == ToFloat(x, Safe(row, 34));
    assert SupplierField(d, 34).value == Decimal(d.quantity);
  }

  lemma MapRowColumn35(x: Externals, row: seq<string>)
    ensures SupplierField(MapRow(x, row).data, 35).value == Convert(x, ColumnConverter(35), Safe(row, 35))
  {
    assert ColumnConverter(35) == AsText;
    assert Convert(x, AsText, Safe(row, 35)) == Text(Safe(row, 35));
    var d := MapRow(x, row).data;
    assert d.unitType == Safe(row, 35);
    assert SupplierField(d, 35).value == Text(d.unitType);
  }

  lemma MapRowColumn36(x: Externals, row: seq<string>)
    ensures SupplierField(MapRow(x, row).data, 36).value == Convert(x, ColumnConverter(36), Safe(row, 36))
  {
    assert ColumnConverter(36) == AsFloat;
    assert Convert(x, AsFloat, Safe(row, 36)) == Decimal(ToFloat(x, Safe(row, 36)));
    var d := MapRow(x, row).data;
    assert d.billingPreTaxTotal == ToFloat(x, Safe(row, 36));
    assert SupplierField(d, 36).value == Decimal(d.billingPreTaxTotal);
  }

  lemma MapRowColumn37(x: Externals, row: seq<string>)
    ensures SupplierField(MapRow(x, row).data, 37).value == Convert(x, ColumnConverter(37), Safe(row, 37))
  {
    assert ColumnConverter(37) == AsText;
    assert Convert(x, AsText, Safe(row, 37)) == Text(Safe(row, 37));
    var d := MapRow(x, row).data;
    assert d.billingCurrency == Safe(row, 37);
    assert SupplierField(d, 37).value == Text(d.billingCurrency);
  }

  lemma MapRowColumn38(x: Externals, row: seq<string>)
    ensures SupplierField(MapRow(x, row).data, 38).value == Convert(x, ColumnConverter(38), Safe(row, 38))
  {
    assert ColumnConverter(38) == AsFloat;
    assert Convert(x, AsFloat, Safe(row, 38)) == Decimal(ToFloat(x, Safe(row, 38)));
    var d := MapRow(x, row).data;
    assert d.pricingPreTaxTotal == ToFloat(x, Safe(row, 38));
    assert SupplierField(d, 38).value == Decimal(d.pricingPreTaxTotal);
  }

  lemma MapRowColumn39(x: Externals, row: seq<string>)
    ensures SupplierField(MapRow(x, row).data, 39).value == Convert(x, ColumnConverter(39), Safe(row, 39))
  {
    assert ColumnConverter(39) == AsText;
    assert Convert(x, AsText, Safe(row, 39)) == Text(Safe(row, 39));
    var d := MapRow(x, row).data;
    assert d.pricingCurrency == Safe(row, 39);
    assert SupplierField(d, 39).value == Text(d.pricingCurrency);
  }

  lemma MapRowColumn40(x: Externals, row: seq<string>)
    ensures SupplierField(MapRow(x, row).data, 40).value == Convert(x, ColumnConverter(40), Safe(row, 40))
  {
    assert ColumnConverter(40) == AsOptText;
    assert Convert(x, AsOptText, Safe(row, 40)) == OptText(ToStringPtr(Safe(row, 40)));
    var d := MapRow(x, row).data;
    assert d.serviceInfo1 == ToStringPtr(Safe(row, 40));
    assert SupplierField(d, 40).value == OptText(d.serviceInfo1);
  }

  lemma MapRowColumn41(x: Externals, row: seq<string>)
    ensures SupplierField(MapRow(x, row).data, 41).value == Convert(x, ColumnConverter(41), Safe(row, 41))
  {
    assert ColumnConverter(41) == AsOptText;
    assert Convert(x, AsOptText, Safe(row, 41)) == OptText(ToStringPtr(Safe(row, 41)));
    var d := MapRow(x, row).data;
    assert d.serviceInfo2 == ToStringPtr(Safe(row, 41));
    assert SupplierField(d, 41).value == OptText(d.serviceInfo2);
  }

  lemma MapRowColumn42(x: Externals, row: seq<string>)
    ensures SupplierField(MapRow(x, row).data, 42).value == Convert(x, ColumnConverter(42), Safe(row, 42))
  {
    assert ColumnConverter(42) == AsMap;
    assert Convert(x, AsMap, Safe(row, 42)) == OptMap(ToMapPtr(x, Safe(row, 42)));
    var d := MapRow(x, row).data;
    assert d.tags == ToMapPtr(x, Safe(row, 42));
    assert SupplierField(d, 42).value == OptMap(d.tags);
  }

  lemma MapRowColumn43(x: Externals, row: seq<string>)
    ensures SupplierField(MapRow(x, row).data, 43).value == Convert(x, ColumnConverter(43), Safe(row, 43))
  {
    assert ColumnConverter(43) == AsMap;
    assert Convert(x, AsMap, Safe(row, 43)) == OptMap(ToMapPtr(x, Safe(row, 43)));
    var d := MapRow(x, row).data;
    assert d.additionalInfo == ToMapPtr(x, Safe(row, 43));
    assert SupplierField(d, 43).value == OptMap(d.additionalInfo);
  }

  lemma MapRowColumn44(x: Externals, row: seq<string>)
    ensures SupplierField(MapRow(x, row).data, 44).value == Convert(x, ColumnConverter(44), Safe(row, 44))
  {
    assert ColumnConverter(44) == AsFloat;
    assert Convert(x, AsFloat, Safe(row, 44)) == Decimal(ToFloat(x, Safe(row, 44)));
    var d := MapRow(x, row).data;
    assert d.effectiveUnitPrice == ToFloat(x, Safe(row, 44));
    assert SupplierField(d, 44).value == Decimal(d.effectiveUnitPrice);
  }

  lemma MapRowColumn45(x: Externals, row: seq<string>)
    ensures SupplierField(MapRow(x, row).data, 45).value == Convert(x, ColumnConverter(45), Safe(row, 45))
  {
    assert ColumnConverter(45) == AsInt;
    assert Convert(x, AsInt, Safe(row, 45)) == Whole(ToInt(Safe(row, 45)));
    var d := MapRow(x, row).data;
    assert d.pcToBcExchangeRate == ToInt(Safe(row, 45));
    assert SupplierField(d, 45).value == Whole(d.pcToBcExchangeRate);
  }

  lemma MapRowColumn46(x: Externals, row: seq<string>)
    ensures SupplierField(MapRow(x, row).data, 46).value == Convert(x, ColumnConverter(46), Safe(row, 46))
  {
    assert ColumnConverter(46) == AsDate;
    assert Convert(x, AsDate, Safe(row, 46)) == Moment(ToDate(x, Safe(row, 46)));
    var d := MapRow(x, row).data;
    assert d.pcToBcExchangeRateDate == ToDate(x, Safe(row, 46));
    assert SupplierField(d, 46).value == Moment(d.pcToBcExchangeRateDate);
  }

  lemma MapRowColumn47(x: Externals, row: seq<string>)
    ensures SupplierField(MapRow(x, row).data, 47).value == Convert(x, ColumnConverter(47), Safe(row, 47))
  {
    assert ColumnConverter(47) == AsText;
    assert Convert(x, AsText, Safe(row, 47)) == Text(Safe(row, 47));
    var d := MapRow(x, row).data;
    assert d.entitlementId == Safe(row, 47);
    assert SupplierField(d, 47).value == Text(d.entitlementId);
  }

  lemma MapRowColumn48(x: Externals, row: seq<string>)
    ensures SupplierField(MapRow(x, row).data, 48).value == Convert(x, ColumnConverter(48), Safe(row, 48))
  {
    assert ColumnConverter(48) == AsText;
    assert Convert(x, AsText, Safe(row, 48)) == Text(Safe(row, 48));
    var d := MapRow(x, row).data;
    assert d.entitlementDescription == Safe(row, 48);
    assert SupplierField(d, 48).value == Text(d.entitlementDescription);
  }

  lemma MapRowColumn49(x: Externals, row: seq<string>)
    ensures SupplierField(MapRow(x, row).data, 49).value == Convert(x, ColumnConverter(49), Safe(row, 49))
  {
    assert ColumnConverter(49) == AsInt;
    assert Convert(x, AsInt, Safe(row, 49)) == Whole(ToInt(Safe(row, 49)));
    var d := MapRow(x, row).data;
    assert d.partnerEarnedCreditPercentage == ToInt(Safe(row, 49));
    assert SupplierField(d, 49).value == Whole(d.partnerEarnedCreditPercentage);
  }

  lemma MapRowColumn50(x: Externals, row: seq<string>)
    ensures SupplierField(MapRow(x, row).data, 50).value == Convert(x, ColumnConverter(50), Safe(row, 50))
  {
    assert ColumnConverter(50) == AsInt;
    assert Convert(x, AsInt, Safe(row, 50)) == Whole(ToInt(Safe(row, 50)));
    var d := MapRow(x, row).data;
    assert d.creditPercentage == ToInt(Safe(row, 50));
    assert SupplierField(d, 50).value == Whole(d.creditPercentage);
  }

  lemma MapRowColumn51(x: Externals, row: seq<string>)
    ensures SupplierField(MapRow(x, row).data, 51).value == Convert(x, ColumnConverter(51), Safe(row, 51))
  {
    assert ColumnConverter(51) == AsText;
    assert Convert(x, AsText, Safe(row, 51)) == Text(Safe(row, 51));
    var d := MapRow(x, row).data;
    assert d.creditType == Safe(row, 51);
    assert SupplierField(d, 51).value == Text(d.creditType);
  }

  lemma MapRowColumn52(x: Externals, row: seq<string>)
    ensures SupplierField(MapRow(x, row).data, 52).value == Convert(x, ColumnConverter(52), Safe(row, 52))
  {
    assert ColumnConverter(52) == AsOptText;
    assert Convert(x, AsOptText, Safe(row, 52)) == OptText(ToStringPtr(Safe(row, 52)));
    var d := MapRow(x, row).data;
    assert d.benefitOrderId == ToStringPtr(Safe(row, 52));
    assert SupplierField(d, 52).value == OptText(d.benefitOrderId);
  }

  lemma MapRowColumn53(x: Externals, row: seq<string>)
    ensures SupplierField(MapRow(x, row).data, 53).value == Convert(x, ColumnConverter(53), Safe(row, 53))
  {
    assert ColumnConverter(53) == AsOptText;
    assert Convert(x, AsOptText, Safe(row, 53)) == OptText(ToStringPtr(Safe(row, 53)));
    var d := MapRow(x, row).data;
    assert d.benefitId == ToStringPtr(Safe(row, 53));
    assert SupplierField(d, 53).value == OptText(d.benefitId);
  }

  lemma MapRowColumn54(x: Externals, row: seq<string>)
    ensures SupplierField(MapRow(x, row).data, 54).value == Convert(x, ColumnConverter(54), Safe(row, 54))
  {
    assert ColumnConverter(54) == AsOptText;
    assert Convert(x, AsOptText, Safe(row, 54)) == OptText(ToStringPtr(Safe(row, 54)));
    var d := MapRow(x, row).data;
    assert d.benefitType == ToStringPtr(Safe(row, 54));
    assert SupplierField(d, 54).value == OptText(d.benefitType);
  }

  /** Column i of a data row, through its converter, is the value of the
      i-th field the validator checks. */
  lemma MapRowColumn(x: Externals, row: seq<string>, i: int)
    requires 0 <= i < TotalColumns
    ensures SupplierField(MapRow(x, row).data, i).value == Convert(x, ColumnConverter(i), Safe(row, i))
  {
    if i == 0 { MapRowColumn0(x, row); }
    else if i == 1 { MapRowColumn1(x, row); }
    else if i == 2 { MapRowColumn2(x, row); }
    else if i == 3 { MapRowColumn3(x, row); }
    else if i == 4 { MapRowColumn4(x, row); }
    else if i == 5 { MapRowColumn5(x, row); }
    else if i == 6 { MapRowColumn6(x, row); }
    else if i == 7 { MapRowColumn7(x, row); }
    else if i == 8 { MapRowColumn8(x, row); }
    else if i == 9 { MapRowColumn9(x, row); }
    else if i == 10 { MapRowColumn10(x, row); }
    else if i == 11 { MapRowColumn11(x, row); }
    else if i == 12 { MapRowColumn12(x, row); }
    else if i == 13 { MapRowColumn13(x, row); }
    else if i == 14 { MapRowColumn14(x, row); }
    else if i == 15 { MapRowColumn15(x, row); }
    else if i == 16 { MapRowColumn16(x, row); }
    else if i == 17 { MapRowColumn17(x, row); }
    else if i == 18 { MapRowColumn18(x, row); }
    else if i == 19 { MapRowColumn19(x, row); }
    else if i == 20 { MapRowColumn20(x, row); }
    else if i == 21 { MapRowColumn21(x, row); }
    else if i == 22 { MapRowColumn22(x, row); }
    else if i == 23 { MapRowColumn23(x, row); }
    else if i == 24 { MapRowColumn24(x, row); }
    else if i == 25 { MapRowColumn25(x, row); }
    else if i == 26 { MapRowColumn26(x, row); }
    else if i == 27 { MapRowColumn27(x, row); }
    else if i == 28 { MapRowColumn28(x, row); }
    else if i == 29 { MapRowColumn29(x, row); }
    else if i == 30 { MapRowColumn30(x, row); }
    else if i == 31 { MapRowColumn31(x, row); }
    else if i == 32 { MapRowColumn32(x, row); }
    else if i == 33 { MapRowColumn33(x, row); }
    else if i == 34 { MapRowColumn34(x, row); }
    else if i == 35 { MapRowColumn35(x, row); }
    else if i == 36 { MapRowColumn36(x, row); }
    else if i == 37 { MapRowColumn37(x, row); }
    else if i == 38 { MapRowColumn38(x, row); }
    else if i == 39 { MapRowColumn39(x, row); }
    else if i == 40 { MapRowColumn40(x, row); }
    else if i == 41 { MapRowColumn41(x, row); }
    else if i == 42 { MapRowColumn42(x, row); }
    else if i == 43 { MapRowColumn43(x, row); }
    else if i == 44 { MapRowColumn44(x, row); }
    else if i == 45 { MapRowColumn45(x, row); }
    else if i == 46 { MapRowColumn46(x, row); }
    else if i == 47 { MapRowColumn47(x, row); }
    else if i == 48 { MapRowColumn48(x, row); }
    else if i == 49 { MapRowColumn49(x, row); }
    else if i == 50 { MapRowColumn50(x, row); }
    else if i == 51 { MapRowColumn51(x, row); }
    else if i == 52 { MapRowColumn52(x, row); }
    else if i == 53 { MapRowColumn53(x, row); }
    else { MapRowColumn54(x, row); }
  }

  /** A row whose charge start date does not read as a date (an empty or
      missing cell, say) is rejected: ChargeStartDate is `required`. */
  lemma UndatedRowRejected(x: Externals, row: seq<string>, now: Instant, generatedId: string)
    requires ToDate(x, Safe(row, 18)) == ZeroTime
    ensures NewSupplier(x, MapRow(x, row), now, generatedId).Failure?
  {
    var d := MapRow(x, row).data;
    MapRowColumn(x, row, 18);
    assert !FieldHolds(x, d, 18);
    NewSupplierOutcome(x, MapRow(x, row), now, generatedId);
  }

  /** So is every row of fewer than 19 cells. */
  lemma ShortRowRejected(x: Externals, row: seq<string>, now: Instant, generatedId: string)
    requires |row| <= 18
    ensures NewSupplier(x, MapRow(x, row), now, generatedId).Failure?
  {
    assert TrimSpace(Safe(row, 18)) == "";
    UndatedRowRejected(x, row, now, generatedId);
  }

  /** What a worker sends on `errChan`: the validator's errors for a
      rejected row, of which the report uses the first, or the error of a
      `CreateMany` call, of which the report uses the text. */
  datatype ImportError = Rejected(first: FieldError) | SinkFailed(message: string)

  /** The non-blocking send on `errChan`, whose buffer holds one error: the
      first error sent stays, later ones are dropped. */
  function Offered(slot: Option<ImportError>, e: ImportError): (r: Option<ImportError>)
    ensures r.Some?
    ensures slot.Some? ==> r == slot
  {
    if slot.None? then Some(e) else slot
  }

  /** What the rest of the program decides for the worker: the clock
      `NewSupplierEntity` reads and the uuid it draws, for the k-th data row
      handled. */
  datatype Env = Env(x: Externals, clock: nat -> Instant, ids: nat -> string)

  /** What the repository's `CreateMany` returns for its n-th call of this
      import and the batch it is given: an error text, or none. */
  type Outcome = (nat, seq<SupplierRecord>) -> Option<string>

  /** `NewSupplierEntity` on the k-th data row: the entity, or the first
      of the validator's errors (the only one the report reads). */
  function Candidate(env: Env, k: nat, row: seq<string>): (r: Result<SupplierRecord, FieldError>)
    ensures r.Failure? <==> NewSupplier(env.x, MapRow(env.x, row), env.clock(k), env.ids(k)).Failure?
    ensures r.Failure? ==>
      && NewSupplier(env.x, MapRow(env.x, row), env.clock(k), env.ids(k)).error != []
      && r.error == NewSupplier(env.x, MapRow(env.x, row), env.clock(k), env.ids(k)).error[0]
    ensures r.Success? ==> r.value == NewSupplier(env.x, MapRow(env.x, row), env.clock(k), env.ids(k)).value
  {
    var props := MapRow(env.x, row);
    match NewSupplier(env.x, props, env.clock(k), env.ids(k))
    case Success(e) => Success(e)
    case Failure(errs) => NewSupplierOutcome(env.x, props, env.clock(k), env.ids(k)); Failure(errs[0])
  }

  /** The outcome of each data row, in order. */
  function Candidates(env: Env, rows: seq<seq<string>>): (rs: seq<Result<SupplierRecord, FieldError>>)
    ensures |rs| == |rows|
  {
    seq(|rows|, k requires 0 <= k < |rows| => Candidate(env, k, rows[k]))
  }

  /** `rs` holds the outcome of each data row. The trigger keeps a proof
      that only indexes `rs` from unfolding `NewSupplierEntity`. */
  predicate OutcomesOf(env: Env, rows: seq<seq<string>>, rs: seq<Result<SupplierRecord, FieldError>>)
  {
    && |rs| == |rows|
    && forall k {:trigger Candidate(env, k, rows[k])} :: 0 <= k < |rows| ==> rs[k] == Candidate(env, k, rows[k])
  }

  lemma CandidatesAreOutcomes(env: Env, rows: seq<seq<string>>)
    ensures OutcomesOf(env, rows, Candidates(env, rows))
  {
  }

  /** The worker's state: its batch, the batches it has handed to
      `CreateMany`, every error it has sent in order (a trace of the
      sends), and what the channel holds. */
  datatype WorkerState = WorkerState(batch: seq<SupplierRecord>, calls: seq<seq<SupplierRecord>>,
                                     sent: seq<ImportError>, slot: Option<ImportError>)

  function Send(st: WorkerState, e: ImportError): WorkerState
  {
    st.(sent := st.sent + [e], slot := Offered(st.slot, e))
  }

  /** `CreateMany` on the batch, its error sent, and the batch emptied. */
  function Flush(out: Outcome, st: WorkerState): WorkerState
  {
    var st1 := st.(batch := [], calls := st.calls + [st.batch]);
    match out(|st.calls|, st.batch)
    case None => st1
    case Some(m) => Send(st1, SinkFailed(m))
  }

  /** The loop body for one data row: a rejected row sends its error and
      is skipped; an accepted one joins the batch, which is flushed once it
      holds `MaxBatchSize` entities. */
  function Step(out: Outcome, st: WorkerState, r: Result<SupplierRecord, FieldError>): WorkerState
  {
    match r
    case Failure(e) => Send(st, Rejected(e))
    case Success(v) =>
      var st1 := st.(batch := st.batch + [v]);
      if |st1.batch| >= MaxBatchSize then Flush(out, st1) else st1
  }

  const Idle := WorkerState([], [], [], None)

  /** The loop over the data rows' outcomes, in order. */
  function Steps(out: Outcome, rs: seq<Result<SupplierRecord, FieldError>>): WorkerState
  {
    if rs == [] then Idle
    else Step(out, Steps(out, rs[..|rs| - 1]), rs[|rs| - 1])
  }

  /** The deferred flush of what is left in the batch. */
  function Finish(out: Outcome, st: WorkerState): WorkerState
  {
    if st.batch != [] then Flush(out, st) else st
  }

  /** The worker over the data rows, until the channel is closed. */
  function RunWorker(env: Env, out: Outcome, rows: seq<seq<string>>): WorkerState
  {
    Finish(out, Steps(out, Candidates(env, rows)))
  }

  // Reference definitions, stated without the worker's state.

  /** The entities of the accepted rows, in row order. */
  function Accepted(rs: seq<Result<SupplierRecord, FieldError>>): seq<SupplierRecord>
  {
    if rs == [] then []
    else Accepted(rs[..|rs| - 1]) + (match rs[|rs| - 1] case Success(v) => [v] case Failure(_) => [])
  }

  /** The first validation error of each rejected row, in row order. */
  function Rejections(rs: seq<Result<SupplierRecord, FieldError>>): seq<FieldError>
  {
    if rs == [] then []
    else Rejections(rs[..|rs| - 1]) + (match rs[|rs| - 1] case Success(_) => [] case Failure(e) => [e])
  }

  /** The error texts of the `CreateMany` calls that failed, in call order. */
  function FailedCalls(out: Outcome, calls: seq<seq<SupplierRecord>>): seq<string>
  {
    if calls == [] then []
    else
      var n := |calls| - 1;
      FailedCalls(out, calls[..n]) + (match out(n, calls[n]) case Some(m) => [m] case None => [])
  }

  /** The batches laid end to end. */
  function Flatten(calls: seq<seq<SupplierRecord>>): seq<SupplierRecord>
  {
    if calls == [] then [] else Flatten(calls[..|calls| - 1]) + calls[|calls| - 1]
  }

  function First(sent: seq<ImportError>): Option<ImportError>
  {
    if sent == [] then None else Some(sent[0])
  }

  /** The validation errors among the sends, in order. */
  function RejectedOf(sent: seq<ImportError>): seq<FieldError>
  {
    if sent == [] then []
    else
      var e := sent[|sent| - 1];
      RejectedOf(sent[..|sent| - 1]) + (if e.Rejected? then [e.first] else [])
  }

  /** The repository errors among the sends, in order. */
  function FailuresOf(sent: seq<ImportError>): seq<string>
  {
    if sent == [] then []
    else
      var e := sent[|sent| - 1];
      FailuresOf(sent[..|sent| - 1]) + (if e.SinkFailed? then [e.message] else [])
  }

  predicate FullBatches(calls: seq<seq<SupplierRecord>>)
  {
    forall i :: 0 <= i < |calls| ==> |calls[i]| == MaxBatchSize
  }

  /** What holds after each row: the batch is short of `MaxBatchSize`,
      every call so far got exactly `MaxBatchSize` entities, the calls and
      the batch together are the accepted entities in row order, the
      channel holds the first error sent, and the sends are the first
      errors of the rejected rows and the errors of the failed calls. */
  predicate StepsInvariant(out: Outcome, rs: seq<Result<SupplierRecord, FieldError>>, st: WorkerState)
  {
    && |st.batch| < MaxBatchSize
    && FullBatches(st.calls)
    && Flatten(st.calls) + st.batch == Accepted(rs)
    && st.slot == First(st.sent)
    && RejectedOf(st.sent) == Rejections(rs)
    && FailuresOf(st.sent) == FailedCalls(out, st.calls)
  }

  lemma SendSnoc(st: WorkerState, e: ImportError)
    requires st.slot == First(st.sent)
    ensures var st1 := Send(st, e);
      && st1.slot == First(st1.sent)
      && RejectedOf(st1.sent) == RejectedOf(st.sent) + (if e.Rejected? then [e.first] else [])
      && FailuresOf(st1.sent) == FailuresOf(st.sent) + (if e.SinkFailed? then [e.message] else [])
  {
    var s := st.sent + [e];
    assert s[..|s| - 1] == st.sent;
  }

  /** A flush keeps the invariant's facts about the sends and adds its
      batch to the calls. */
  lemma FlushSnoc(out: Outcome, st: WorkerState)
    requires st.slot == First(st.sent)
    requires FailuresOf(st.sent) == FailedCalls(out, st.calls)
    ensures var st1 := Flush(out, st);
      && st1.batch == [] && st1.calls == st.calls + [st.batch]
      && st1.slot == First(st1.sent)
      && RejectedOf(st1.sent) == RejectedOf(st.sent)
      && FailuresOf(st1.sent) == FailedCalls(out, st1.calls)
  {
    var c := st.calls + [st.batch];
    assert c[..|c| - 1] == st.calls;
    var st1 := st.(batch := [], calls := c);
    match out(|st.calls|, st.batch)
    case None =>
    case Some(m) => SendSnoc(st1, SinkFailed(m));
  }

  lemma FlattenSnoc(calls: seq<seq<SupplierRecord>>, b: seq<SupplierRecord>)
    ensures Flatten(calls + [b]) == Flatten(calls) + b
  {
    var c := calls + [b];
    assert c[..|c| - 1] == calls;
  }

  lemma {:induction false} StepsKeepInvariant(out: Outcome, rs: seq<Result<SupplierRecord, FieldError>>)
    ensures StepsInvariant(out, rs, Steps(out, rs))
  {
    if rs != [] {
      var prev := rs[..|rs| - 1];
      StepsKeepInvariant(out, prev);
      var st := Steps(out, prev);
      match rs[|rs| - 1]
      case Failure(e) =>
        SendSnoc(st, Rejected(e));
      case Success(v) =>
        var st1 := st.(batch := st.batch + [v]);
        assert Flatten(st1.calls) + st1.batch == Accepted(rs);
        if |st1.batch| >= MaxBatchSize {
          FlushSnoc(out, st1);
          FlattenSnoc(st1.calls, st1.batch);
        }
    }
  }

  /** What the worker leaves once the channel is closed: every call got
      between 1 and `MaxBatchSize` entities and all but the last exactly
      `MaxBatchSize`; the calls, end to end, are the accepted entities in
      row order, so a rejected row or a failed call stops nothing; the
      channel holds the first error sent; and the sends are exactly the
      first errors of the rejected rows and the errors of the failed calls. */
  lemma RunWorkerSpec(env: Env, out: Outcome, rows: seq<seq<string>>)
    ensures var st, rs := RunWorker(env, out, rows), Candidates(env, rows);
      && st.batch == []
      && (forall i :: 0 <= i < |st.calls| ==> 1 <= |st.calls[i]| <= MaxBatchSize)
      && (forall i :: 0 <= i < |st.calls| - 1 ==> |st.calls[i]| == MaxBatchSize)
      && Flatten(st.calls) == Accepted(rs)
      && st.slot == First(st.sent)
      && RejectedOf(st.sent) == Rejections(rs)
      && FailuresOf(st.sent) == FailedCalls(out, st.calls)
  {
    var rs := Candidates(env, rows);
    var st := Steps(out, rs);
    StepsKeepInvariant(out, rs);
    if st.batch != [] {
      FlushSnoc(out, st);
      FlattenSnoc(st.calls, st.batch);
    } else {
      assert Flatten(st.calls) + [] == Flatten(st.calls);
    }
  }

  lemma {:induction false} NothingSent(sent: seq<ImportError>)
    ensures sent == [] <==> RejectedOf(sent) == [] && FailuresOf(sent) == []
  {
    if sent != [] {
      NothingSent(sent[..|sent| - 1]);
    }
  }

  /** The worker leaves the channel empty exactly when no row was rejected
      and no `CreateMany` call failed. */
  lemma RunWorkerQuiet(env: Env, out: Outcome, rows: seq<seq<string>>)
    ensures var st := RunWorker(env, out, rows);
      st.slot.None? <==> Rejections(Candidates(env, rows)) == [] && FailedCalls(out, st.calls) == []
  {
    RunWorkerSpec(env, out, rows);
    NothingSent(RunWorker(env, out, rows).sent);
  }

  lemma {:induction false} StepsSlotKept(out: Outcome, rs: seq<Result<SupplierRecord, FieldError>>, n: nat)
    requires n <= |rs| && Steps(out, rs[..n]).slot.Some?
    ensures Steps(out, rs).slot == Steps(out, rs[..n]).slot
  {
    if n < |rs| {
      var k := |rs| - 1;
      assert rs[..k][..n] == rs[..n];
      StepsSlotKept(out, rs[..k], n);
    } else {
      assert rs[..n] == rs;
    }
  }

  /** Once an error is in the channel it is the one the worker leaves
      there: the rows and calls after it do not replace it. */
  lemma SlotKept(env: Env, out: Outcome, rows: seq<seq<string>>, n: nat)
    requires n <= |rows| && Steps(out, Candidates(env, rows)[..n]).slot.Some?
    ensures RunWorker(env, out, rows).slot == Steps(out, Candidates(env, rows)[..n]).slot
  {
    StepsSlotKept(out, Candidates(env, rows), n);
  }

  /** So when the first data row is rejected, its first field error is
      what the worker leaves in the channel. */
  lemma FirstRowRejected(env: Env, out: Outcome, rows: seq<seq<string>>)
    requires rows != [] && Candidate(env, 0, rows[0]).Failure?
    ensures RunWorker(env, out, rows).slot == Some(Rejected(Candidate(env, 0, rows[0]).error))
  {
    var rs := Candidates(env, rows);
    assert rs[..1][..0] == [] && rs[..1][0] == rs[0];
    SlotKept(env, out, rows, 1);
  }

  /** The supplier repository, as far as the import uses it: the batches
      `CreateMany` has received, in order, and what it answers. */
  class SupplierSink {
    var calls: seq<seq<SupplierRecord>>
    const outcome: Outcome

    constructor (outcome: Outcome)
      ensures calls == [] && this.outcome == outcome
    {
      calls := [];
      this.outcome := outcome;
    }

    /** `CreateMany`: records the batch and answers for this call. */
    method CreateMany(batch: seq<SupplierRecord>) returns (err: Option<string>)
      modifies this
      ensures calls == old(calls) + [batch]
      ensures err == outcome(|old(calls)|, batch)
    {
      err := outcome(|calls|, batch);
      calls := calls + [batch];
    }
  }

  /** `errChan`: a channel with a buffer of one error. */
  class ErrorSlot {
    var held: Option<ImportError>

    constructor ()
      ensures held == None
    {
      held := None;
    }

    /** The `select` with an empty `default`: the send happens only when
        the buffer is free. */
    method TrySend(e: ImportError)
      modifies this
      ensures held == Offered(old(held), e)
    {
      if held == None {
        held := Some(e);
      }
    }
  }

  /** The answers of a repository that has already been called `base`
      times, counted from this import's first call. */
  function Shift(outcome: Outcome, base: nat): Outcome
  {
    (n: nat, batch: seq<SupplierRecord>) => outcome(base + n, batch)
  }

  /** `NewSupplierEntity` on the props of the k-th data row, as the
      worker reads its result: the entity's record, or its first error. */
  method BuildRow(env: Env, rows: seq<seq<string>>, k: nat, ghost rs: seq<Result<SupplierRecord, FieldError>>)
    returns (r: Result<SupplierRecord, FieldError>)
    requires k < |rows| && OutcomesOf(env, rows, rs)
    ensures r == rs[k]
  {
    var props := MapRow(env.x, rows[k]);
    var made := NewSupplierEntity(env.x, props, env.clock(k), env.ids(k));
    assert rs[k] == Candidate(env, k, rows[k]);
    if made.Failure? {
      NewSupplierOutcome(env.x, props, env.clock(k), env.ids(k));
      return Failure(made.error[0]);
    }
    return Success(made.value.Record());
  }

  /** The `default` branch of the worker's loop for one row: the row's
      result goes to the slot or the batch, and a full batch to the
      repository. */
  method HandleRow(ghost out: Outcome, r: Result<SupplierRecord, FieldError>, batch: seq<SupplierRecord>,
                   ghost st: WorkerState, sink: SupplierSink, slot: ErrorSlot)
    returns (batch': seq<SupplierRecord>)
    requires batch == st.batch && slot.held == st.slot && |st.calls| <= |sink.calls|
    requires out == Shift(sink.outcome, |sink.calls| - |st.calls|)
    modifies sink, slot
    ensures var st' := Step(out, st, r);
      && batch' == st'.batch && slot.held == st'.slot
      && sink.calls == old(sink.calls) + st'.calls[|st.calls|..]
      && |st.calls| <= |st'.calls|
  {
    batch' := batch;
    match r
    case Failure(e) =>
      slot.TrySend(Rejected(e));
    case Success(v) =>
      batch' := batch' + [v];
      if |batch'| >= MaxBatchSize {
        var err := sink.CreateMany(batch');
        if err.Some? {
          slot.TrySend(SinkFailed(err.value));
        }
        batch' := [];
      }
  }

  lemma StepsSnoc(out: Outcome, rs: seq<Result<SupplierRecord, FieldError>>, k: nat)
    requires k < |rs|
    ensures Steps(out, rs[..k + 1]) == Step(out, Steps(out, rs[..k]), rs[k])
  {
    assert rs[..k + 1][..k] == rs[..k];
  }

  /** The worker goroutine over the rows it receives, in order, given
      their outcomes `rs`: its batch is a local, its sends go to the slot,
      its calls to the repository. Its effect is the functional worker's. */
  method Worker(env: Env, rows: seq<seq<string>>, ghost rs: seq<Result<SupplierRecord, FieldError>>,
                sink: SupplierSink, slot: ErrorSlot)
    requires OutcomesOf(env, rows, rs) && slot.held.None?
    modifies sink, slot
    ensures var st := Finish(Shift(sink.outcome, |old(sink.calls)|), Steps(Shift(sink.outcome, |old(sink.calls)|), rs));
      sink.calls == old(sink.calls) + st.calls && slot.held == st.slot
  {
    ghost var out := Shift(sink.outcome, |old(sink.calls)|);
    var batch: seq<SupplierRecord> := [];
    var k := 0;
    while k < |rows|
      invariant 0 <= k <= |rows|
      invariant var st := Steps(out, rs[..k]);
        batch == st.batch && sink.calls == old(sink.calls) + st.calls && slot.held == st.slot
    {
      ghost var st := Steps(out, rs[..k]);
      var r := BuildRow(env, rows, k, rs);
      StepsSnoc(out, rs, k);
      batch := HandleRow(out, r, batch, st, sink, slot);
      k := k + 1;
    }
    assert rs[..|rows|] == rs;
    FlushRest(out, batch, Steps(out, rs), sink, slot);
  }

  /** The worker's deferred function: what is left in the batch goes to
      the repository, and its error to the slot. */
  method FlushRest(ghost out: Outcome, batch: seq<SupplierRecord>, ghost st: WorkerState, sink: SupplierSink, slot: ErrorSlot)
    requires batch == st.batch && slot.held == st.slot && |st.calls| <= |sink.calls|
    requires out == Shift(sink.outcome, |sink.calls| - |st.calls|)
    modifies sink, slot
    ensures var st' := Finish(out, st);
      && slot.held == st'.slot
      && sink.calls == old(sink.calls) + st'.calls[|st.calls|..]
  {
    if |batch| > 0 {
      var err := sink.CreateMany(batch);
      if err.Some? {
        slot.TrySend(SinkFailed(err.value));
      }
    }
  }

  /** The rows the worker handles: every row after the header, in order,
      until it sees the context done. `stopAfter` is the number of data
      rows it handles before that, if the context ends. Its `select`
      prefers a done context to `default`, so the rows after those are
      dropped, whether the producer had queued them or not. */
  function DataRows(rows: seq<seq<string>>, stopAfter: Option<nat>): (queue: seq<seq<string>>)
    ensures rows != [] ==> queue <= rows[1..]
    ensures rows != [] && stopAfter.None? ==> queue == rows[1..]
    ensures rows != [] && stopAfter.Some? ==> |queue| == if stopAfter.value < |rows| - 1 then stopAfter.value else |rows| - 1
    ensures rows == [] ==> queue == []
  {
    if rows == [] then []
    else if stopAfter.Some? && stopAfter.value < |rows| - 1 then rows[1..stopAfter.value + 1]
    else rows[1..]
  }

  /** The producer goroutine and the worker's check of the context
      together: the header row is skipped and the others go to the worker,
      in order, until the context is done. */
  method Produce(rows: seq<seq<string>>, stopAfter: Option<nat>) returns (queue: seq<seq<string>>)
    ensures queue == DataRows(rows, stopAfter)
  {
    queue := [];
    var i := 0;
    while i < |rows|
      invariant 0 <= i <= |rows|
      invariant queue == if i == 0 then [] else rows[1..i]
      invariant stopAfter.Some? ==> |queue| <= stopAfter.value
    {
      if i != 0 {
        if stopAfter.Some? && |queue| == stopAfter.value {
          break;
        }
        queue := queue + [rows[i]];
      }
      i := i + 1;
    }
  }

  /** How the multipart file reads: not at all, or as an archive the zip
      reader accepts or not. */
  datatype Upload = Unreadable | Readable(archive: Option<seq<XlsxParser.ZipEntry>>)

  /** The report of the error left in `errChan`: the field and tag of a
      validation error, or the text of any other error. */
  function Report(e: ImportError): AppError
  {
    match e
    case Rejected(fe) => NewBadRequestError(Sprintf(ValidationFormat, [fe.field, fe.tag]))
    case SinkFailed(m) => NewBadRequestError(Sprintf(ImportFormat, [m]))
  }

  /** What `Execute` returns and the batches it hands to the repository. */
  datatype ImportOutcome = ImportOutcome(err: Option<AppError>, calls: seq<seq<SupplierRecord>>)

  /** `Execute` as a function of the upload, the repository's answers and
      the moment the context is done. */
  function Import(env: Env, out: Outcome, upload: Upload, stopAfter: Option<nat>): ImportOutcome
  {
    match upload
    case Unreadable => ImportOutcome(Some(NewBadRequestError(OpenFailedText)), [])
    case Readable(archive) =>
      match XlsxRows(archive)
      case Failure(_) => ImportOutcome(Some(NewBadRequestError(ParseFailedText)), [])
      case Success(rows) =>
        if |rows| <= 1 then ImportOutcome(Some(NewBadRequestError(EmptySheetText)), [])
        else
          var st := RunWorker(env, out, DataRows(rows, stopAfter));
          ImportOutcome(if st.slot.None? then None else Some(Report(st.slot.value)), st.calls)
  }

  /** `Execute`. */
  method Execute(env: Env, upload: Upload, stopAfter: Option<nat>, sink: SupplierSink) returns (err: Option<AppError>)
    modifies sink
    ensures var o := Import(env, Shift(sink.outcome, |old(sink.calls)|), upload, stopAfter);
      err == o.err && sink.calls == old(sink.calls) + o.calls
  {
    if upload.Unreadable? {
      return Some(NewBadRequestError(OpenFailedText));
    }
    var parsed := ParseXlsxRows(upload.archive);
    if parsed.Failure? {
      return Some(NewBadRequestError(ParseFailedText));
    }
    var rows := parsed.value;
    if |rows| <= 1 {
      return Some(NewBadRequestError(EmptySheetText));
    }
    var queue := Produce(rows, stopAfter);
    ghost var rs := Candidates(env, queue);
    CandidatesAreOutcomes(env, queue);
    var slot := new ErrorSlot();
    Worker(env, queue, rs, sink, slot);
    match slot.held
    case None => err := None;
    case Some(e) => err := Some(Report(e));
  }

  /** The texts a failed import reports: the field and the tag of the
      first validation error, or the repository's error text. */
  lemma ReportTexts(e: ImportError)
    ensures e.Rejected? ==> Report(e).Error() == ValidationPrefix + (e.first.field + (ValidationMiddle + e.first.tag))
    ensures e.SinkFailed? ==> Report(e).Error() == ImportPrefix + e.message
    ensures Report(e).code == StatusBadRequest && Report(e).errType == BadRequestError
  {
    match e
    case Rejected(fe) =>
      SprintfTwo(ValidationPrefix, ValidationMiddle, "", fe.field, fe.tag);
      assert fe.tag + "" == fe.tag;
    case SinkFailed(m) =>
      SprintfOne(ValueVerb, ImportPrefix, "", m);
      assert m + "" == m;
  }

  /** An upload that cannot be opened or parsed, or a sheet with no data
      row, is a bad request and nothing reaches the repository. */
  lemma ImportRejectsBeforeWorking(env: Env, out: Outcome, upload: Upload, stopAfter: Option<nat>)
    ensures var o := Import(env, out, upload, stopAfter);
      && (upload.Unreadable? ==> o.err == Some(NewBadRequestError(OpenFailedText)))
      && (upload.Readable? && XlsxRows(upload.archive).Failure? ==> o.err == Some(NewBadRequestError(ParseFailedText)))
      && (upload.Readable? && XlsxRows(upload.archive).Success? && |XlsxRows(upload.archive).value| <= 1 ==>
            o.err == Some(NewBadRequestError(EmptySheetText)))
      && (o.calls != [] ==> upload.Readable? && XlsxRows(upload.archive).Success? && |XlsxRows(upload.archive).value| > 1)
  {
  }

  /** A sheet with data rows: the repository receives, in batches of at
      most `MaxBatchSize`, exactly the rows after the header that
      `NewSupplierEntity` accepts, in file order; the errors sent are the
      first error of each rejected row and the error of each failed call;
      the import fails exactly when there is one, and then with the first
      sent. */
  lemma ImportStoresAccepted(env: Env, out: Outcome, archive: Option<seq<XlsxParser.ZipEntry>>, stopAfter: Option<nat>)
    requires XlsxRows(archive).Success? && |XlsxRows(archive).value| > 1
    ensures var o, data := Import(env, out, Readable(archive), stopAfter), DataRows(XlsxRows(archive).value, stopAfter);
      var st := RunWorker(env, out, data);
      && o.calls == st.calls
      && (forall i :: 0 <= i < |o.calls| ==> 1 <= |o.calls[i]| <= MaxBatchSize)
      && Flatten(o.calls) == Accepted(Candidates(env, data))
      && (o.err.None? <==> Rejections(Candidates(env, data)) == [] && FailedCalls(out, o.calls) == [])
      && RejectedOf(st.sent) == Rejections(Candidates(env, data))
      && FailuresOf(st.sent) == FailedCalls(out, o.calls)
      && (st.sent != [] ==> o.err == Some(Report(st.sent[0])))
  {
    var data := DataRows(XlsxRows(archive).value, stopAfter);
    RunWorkerSpec(env, out, data);
    RunWorkerQuiet(env, out, data);
  }

  /** A context that is done before the worker handles the first data row
      ends the import with no error and nothing stored. */
  lemma CancelledImportSucceeds(env: Env, out: Outcome, archive: Option<seq<XlsxParser.ZipEntry>>)
    requires XlsxRows(archive).Success? && |XlsxRows(archive).value| > 1
    ensures Import(env, out, Readable(archive), Some(0)) == ImportOutcome(None, [])
  {
    assert DataRows(XlsxRows(archive).value, Some(0)) == [];
  }
}
