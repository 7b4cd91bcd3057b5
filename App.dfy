/**
 * The application component: the two company profiles, the initial invoice, and the state the
 * component holds (language, selected company, invoice), updated by its handlers. The current
 * date used by the initial invoice is a parameter.
 */
module App {
  import opened Document
  import Form

  datatype CompanyId = Skycorp | SkycorpTech

  /** One entry of the company table. */
  datatype Profile = Profile(name: string, address: string, regCode: string, bankAccount: string, bic: string)

  /** The company table. */
  function Companies(id: CompanyId): Profile
  {
    match id
    case Skycorp =>
      Profile("SKYCORP OÜ", "Nurme vkt 17, 61702 Külitse, Eesti", "14211211", "EE117700771002605677", "LHVBEE22")
    case SkycorpTech =>
      Profile("SKYCORP Technologies OÜ", "Teaduspargi 11, Tartu", "16782217", "EE767700771009349402", "LHVBEE22")
  }

  /**
   * The two profiles differ in every supplier field shown except the BIC, which both share, so a
   * switch always changes the supplier on the invoice.
   */
  lemma ProfilesDiffer(id: CompanyId)
    ensures Companies(id).name != Companies(NextCompany(id)).name
    ensures Companies(id).address != Companies(NextCompany(id)).address
    ensures Companies(id).regCode != Companies(NextCompany(id)).regCode
    ensures Companies(id).bankAccount != Companies(NextCompany(id)).bankAccount
    ensures Companies(id).bic == Companies(NextCompany(id)).bic == "LHVBEE22"
  {
  }

  /** The company the switch button selects next. */
  function NextCompany(id: CompanyId): (next: CompanyId)
    ensures next != id
  {
    if id == Skycorp then SkycorpTech else Skycorp
  }

  /** Switching twice comes back to the company one started from. */
  lemma NextCompanyTwice(id: CompanyId)
    ensures NextCompany(NextCompany(id)) == id
  {
  }

  datatype Language = Et | En

  /** The language button: Estonian to English and back. */
  function ToggledLanguage(language: Language): (next: Language)
    ensures next != language
  {
    if language == Et then En else Et
  }

  lemma ToggleTwice(language: Language)
    ensures ToggledLanguage(ToggledLanguage(language)) == language
  {
  }

  /** The supplier data shown on the invoice agrees with profile `p`. */
  predicate SupplierIs(data: Invoice, p: Profile)
  {
    data.company.name == p.name && data.company.address == p.address && data.company.regCode == p.regCode
    && data.bankAccount == p.bankAccount && data.bic == p.bic
  }

  /** The invoice the application starts with for company `id`, dated `today`. */
  function InitialInvoice(id: CompanyId, today: string): (data: Invoice)
    ensures SupplierIs(data, Companies(id))
    ensures data.company.bankAccount == Some(Companies(id).bankAccount)
    ensures data.company.bic == Some(Companies(id).bic)
    ensures data.client == Client("", "Teenusearve", "", "")
    ensures data.invoiceNumber == "2025043002" && data.date == today
    ensures data.taxRate == 22.0 && data.items == [] && data.notes == "" && data.dueDate == ""
  {
    var p := Companies(id);
    Invoice(
      Company(p.name, p.address, p.regCode, Some(p.bankAccount), Some(p.bic)),
      Client("", "Teenusearve", "", ""),
      "2025043002", today, "", p.bankAccount, p.bic, 22.0, [], "")
  }

  /**
   * The invoice after switching to profile `p`: the company record holds exactly its name,
   * address and registration code, the bank fields take its values, and the rest stays.
   */
  function SwitchedInvoice(prev: Invoice, p: Profile): (data: Invoice)
    ensures SupplierIs(data, p)
    ensures data.company.bankAccount == None && data.company.bic == None
    ensures data.client == prev.client && data.items == prev.items && data.taxRate == prev.taxRate
    ensures data.notes == prev.notes && data.invoiceNumber == prev.invoiceNumber
    ensures data.date == prev.date && data.dueDate == prev.dueDate
  {
    prev.(company := Company(p.name, p.address, p.regCode, None, None), bankAccount := p.bankAccount, bic := p.bic)
  }

  /**
   * Two switches bring back the supplier data shown and leave everything else alone, but the
   * company record no longer carries the bank fields the initial copy of the profile had.
   */
  lemma SwitchTwiceFromInitial(id: CompanyId, today: string)
    ensures var twice := SwitchedInvoice(SwitchedInvoice(InitialInvoice(id, today), Companies(NextCompany(id))),
                                         Companies(NextCompany(NextCompany(id))));
            SupplierIs(twice, Companies(id))
            && twice == InitialInvoice(id, today).(company := twice.company)
            && twice != InitialInvoice(id, today)
  {
    var start := InitialInvoice(id, today);
    var twice := SwitchedInvoice(SwitchedInvoice(start, Companies(NextCompany(id))), Companies(NextCompany(NextCompany(id))));
    assert twice.company.bankAccount != start.company.bankAccount;
  }

  /** The form's text, number and client edits never change the supplier data. */
  lemma FormEditsKeepSupplier(data: Invoice, p: Profile, f: Form.TextField, c: Form.ClientField,
                              text: string, parse: string -> Option<real>)
    requires SupplierIs(data, p)
    ensures SupplierIs(Form.HandleFieldChange(data, f, text), p)
    ensures SupplierIs(Form.HandleNumberChange(data, Form.TaxRate, text, parse), p)
    ensures SupplierIs(Form.SetClientField(data, c, text), p)
  {
  }

  /** The exported file's name: the invoice number, or `export` when the number is empty. */
  function ExportFileName(invoiceNumber: string): (name: string)
    ensures |invoiceNumber| > 0 ==> name == "invoice_" + invoiceNumber + ".pdf"
    ensures invoiceNumber == "" ==> name == "invoice_export.pdf"
  {
    "invoice_" + (if invoiceNumber != "" then invoiceNumber else "export") + ".pdf"
  }

  /** The part of an export file name between `invoice_` and `.pdf`, if it has that shape. */
  function NumberInFileName(name: string): (stem: Option<string>)
    ensures stem.Some? ==> name == "invoice_" + stem.value + ".pdf"
  {
    if |name| >= 12 && name[..8] == "invoice_" && name[|name| - 4..] == ".pdf"
    then Some(name[8..|name| - 4]) else None
  }

  /** The invoice number can be read back from the file name, with `export` for an empty one. */
  lemma {:induction false} FileNameRoundTrip(invoiceNumber: string)
    ensures NumberInFileName(ExportFileName(invoiceNumber))
         == Some(if invoiceNumber == "" then "export" else invoiceNumber)
  {
    var middle := if invoiceNumber == "" then "export" else invoiceNumber;
    var name := ExportFileName(invoiceNumber);
    assert name == "invoice_" + middle + ".pdf";
    assert name[..8] == "invoice_";
    assert name[|name| - 4..] == ".pdf";
    assert name[8..|name| - 4] == middle;
  }

  /** Distinct non-empty invoice numbers give distinct file names; an empty one and `export` collide. */
  lemma FileNameInjective(a: string, b: string)
    requires a != "" && b != "" && a != b
    ensures ExportFileName(a) != ExportFileName(b)
    ensures ExportFileName("") == ExportFileName("export")
  {
    FileNameRoundTrip(a);
    FileNameRoundTrip(b);
  }

  /** Two invoice numbers share a file name exactly when they are equal or are `""` and `export`. */
  lemma FileNameCollisions(a: string, b: string)
    ensures ExportFileName(a) == ExportFileName(b)
        <==> a == b || (a == "" && b == "export") || (a == "export" && b == "")
  {
    FileNameRoundTrip(a);
    FileNameRoundTrip(b);
  }

  /** The state the application component holds. */
  class AppState {
    var language: Language
    var companyId: CompanyId
    var invoiceData: Invoice

    /** The initial state, with `today` the current date. */
    constructor (today: string)
      ensures language == Et && companyId == Skycorp
      ensures invoiceData == InitialInvoice(Skycorp, today)
      ensures SupplierIs(invoiceData, Companies(companyId))
    {
      language := Et;
      companyId := Skycorp;
      invoiceData := InitialInvoice(Skycorp, today);
    }

    /** The form's change callback replaces the whole invoice. */
    method HandleDataChange(updated: Invoice)
      modifies this
      ensures invoiceData == updated
      ensures language == old(language) && companyId == old(companyId)
    {
      invoiceData := updated;
    }

    /** Selects the other company and writes its profile into the invoice. */
    method SwitchCompany()
      modifies this
      ensures companyId == NextCompany(old(companyId))
      ensures invoiceData == SwitchedInvoice(old(invoiceData), Companies(companyId))
      ensures SupplierIs(invoiceData, Companies(companyId))
      ensures language == old(language)
    {
      var nextId := NextCompany(companyId);
      var nextCompany := Companies(nextId);
      companyId := nextId;
      invoiceData := SwitchedInvoice(invoiceData, nextCompany);
    }

    method ToggleLanguage()
      modifies this
      ensures language == ToggledLanguage(old(language))
      ensures companyId == old(companyId) && invoiceData == old(invoiceData)
    {
      language := ToggledLanguage(language);
    }

    /** The name under which the current invoice is exported. */
    function FileName(): (name: string)
      reads this
      ensures NumberInFileName(name)
           == Some(if invoiceData.invoiceNumber == "" then "export" else invoiceData.invoiceNumber)
    {
      FileNameRoundTrip(invoiceData.invoiceNumber);
      ExportFileName(invoiceData.invoiceNumber)
    }
  }
}
