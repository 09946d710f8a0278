/** What a dispatched call returns: the pallet's own errors, the error the
    currency raises, and the one arithmetic fault the pallet can hit. */
module Dispatch {

  datatype Error =
    | InvalidDuration       // `create` with a zero duration
    | PoolExpired           // `swap` rejected by its time guard
    | InsufficientBalance   // raised by the currency: free balance below the amount
    | DivisionByZero        // `swap` priced against a pool whose total1 is zero

  datatype Result<T> = Success(value: T) | Failure(error: Error)
}
