/** The seller-application draft held by the client form
    (frontend/src/components/forms/BecomeSellerModal.jsx): the ten-field
    record, the per-keystroke field update, the required-field check and
    the payload sent to the server. */
module SellerForm {

  /** The names of the form's inputs. */
  datatype Field =
    | BusinessName | BusinessType | Description | Address | City
    | State | Pincode | GstNumber | BankAccount | IfscCode

  datatype Form = Form(
    businessName: string,
    businessType: string,
    description: string,
    address: string,
    city: string,
    state: string,
    pincode: string,
    gstNumber: string,
    bankAccount: string,
    ifscCode: string)

  /** The initial (and post-success) draft: every field empty. */
  const Empty: Form := Form("", "", "", "", "", "", "", "", "", "")

  /** `formData[name]`. */
  function Get(f: Form, name: Field): string {
    match name
    case BusinessName => f.businessName
    case BusinessType => f.businessType
    case Description => f.description
    case Address => f.address
    case City => f.city
    case State => f.state
    case Pincode => f.pincode
    case GstNumber => f.gstNumber
    case BankAccount => f.bankAccount
    case IfscCode => f.ifscCode
  }

  /** `{ ...formData, [name]: value }`: the named field takes the new value
      and the other nine keep theirs. */
  function Set(f: Form, name: Field, value: string): (r: Form)
    ensures Get(r, name) == value
    ensures forall other :: other != name ==> Get(r, other) == Get(f, other)
  {
    match name
    case BusinessName => f.(businessName := value)
    case BusinessType => f.(businessType := value)
    case Description => f.(description := value)
    case Address => f.(address := value)
    case City => f.(city := value)
    case State => f.(state := value)
    case Pincode => f.(pincode := value)
    case GstNumber => f.(gstNumber := value)
    case BankAccount => f.(bankAccount := value)
    case IfscCode => f.(ifscCode := value)
  }

  /** The fields a submission cannot go without. */
  predicate Required(name: Field) {
    name in {BusinessName, BusinessType, Address, City, State, Pincode, Description}
  }

  /** The submit handler's required-field test, as the chain of falsy checks
      it is written as. */
  predicate MissingRequired(f: Form) {
    f.businessName == "" || f.businessType == "" || f.address == "" ||
    f.city == "" || f.state == "" || f.pincode == "" || f.description == ""
  }

  /** The chain of checks fails exactly when some required field is empty. */
  lemma MissingRequiredIffBlankRequired(f: Form)
    ensures MissingRequired(f) <==> exists name :: Required(name) && Get(f, name) == ""
  {
    if MissingRequired(f) {
      var blank :=
        if f.businessName == "" then BusinessName
        else if f.businessType == "" then BusinessType
        else if f.address == "" then Address
        else if f.city == "" then City
        else if f.state == "" then State
        else if f.pincode == "" then Pincode
        else Description;
      assert Required(blank) && Get(f, blank) == "";
    }
  }

  /** `value || ''`. */
  function OrEmpty(value: string): string {
    if value != "" then value else ""
  }

  /** The request body built from the draft: the seven required fields as
      they are and the three optional ones defaulted to `''`. For string
      fields the default changes nothing, so the body is the draft itself. */
  function Payload(f: Form): (body: Form)
    ensures forall name :: Get(body, name) == Get(f, name)
    ensures body == f
  {
    Form(
      businessName := f.businessName,
      businessType := f.businessType,
      description := f.description,
      address := f.address,
      city := f.city,
      state := f.state,
      pincode := f.pincode,
      gstNumber := OrEmpty(f.gstNumber),
      bankAccount := OrEmpty(f.bankAccount),
      ifscCode := OrEmpty(f.ifscCode))
  }

  /** Editing an optional field never changes whether the draft is blocked. */
  lemma OptionalFieldsNeverBlock(f: Form, name: Field, value: string)
    requires !Required(name)
    ensures MissingRequired(Set(f, name, value)) == MissingRequired(f)
  {
    var g := Set(f, name, value);
    forall other | Required(other)
      ensures Get(g, other) == Get(f, other)
    {
    }
  }
}
