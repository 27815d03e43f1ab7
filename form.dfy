/** The four input fields both components keep, and the fixed order in
    which they go over the wire. */
module Form {

  /** The `name` attribute of each input. */
  datatype Field = CreditLimit | Age | BillAmount | PaymentAmount

  /** Position of a field in the request's `input` array. */
  function Position(f: Field): (k: nat)
    ensures k < 4
  {
    match f
    case CreditLimit => 0
    case Age => 1
    case BillAmount => 2
    case PaymentAmount => 3
  }

  /** One value per field: strings in PredictionForm, numbers in CreditRiskPredictor. */
  datatype Fields<T> = Fields(creditLimit: T, age: T, billAmount: T, paymentAmount: T) {

    function Get(f: Field): T {
      match f
      case CreditLimit => creditLimit
      case Age => age
      case BillAmount => billAmount
      case PaymentAmount => paymentAmount
    }

    /** `{ ...prev, [name]: value }`: the named field is replaced, the other three are kept. */
    function With(f: Field, value: T): (r: Fields<T>)
      ensures r.Get(f) == value
      ensures forall g :: g != f ==> r.Get(g) == Get(g)
    {
      match f
      case CreditLimit => this.(creditLimit := value)
      case Age => this.(age := value)
      case BillAmount => this.(billAmount := value)
      case PaymentAmount => this.(paymentAmount := value)
    }

    /** Applies `g` to every field. */
    function Map<U>(g: T -> U): (r: Fields<U>)
      ensures forall f :: r.Get(f) == g(Get(f))
    {
      Fields(g(creditLimit), g(age), g(billAmount), g(paymentAmount))
    }

    /** The request's `input` array: every field at its `Position`. */
    function Input(): (r: seq<T>)
      ensures |r| == 4
      ensures forall f :: r[Position(f)] == Get(f)
    {
      [creditLimit, age, billAmount, paymentAmount]
    }
  }
}
