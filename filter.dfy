/** A product filter as shown on the product list. */
module Filters {
  import opened Products

  /**
   * The filter's test. The source stores a lambda, which a record compares
   * by reference, so the test is held by an object and compared by identity.
   */
  class FilterPredicate {
    const test: Product -> bool

    constructor (test: Product -> bool)
      ensures this.test == test
    {
      this.test := test;
    }
  }

  /** `name` is the string resource naming the filter; `condition` holds its predicate. */
  datatype Filter = Filter(name: string, isSelected: bool, condition: FilterPredicate)
}
