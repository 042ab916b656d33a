/** Results of calls that can fail, and the failures the code distinguishes. */
module Wrappers {

  datatype Option<+T> = None | Some(value: T)

  datatype Error =
    | StoreFault                 // any failure inside the entity store
    | EntityNotFound
    | TopicNotFound
    | TopicAlreadyExists
    | TopicAlreadyRegistered
    | SubscriptionNotFound
    | SubscriptionAlreadyExists
    | DeliveryNotFound

  datatype Result<+T> = Success(value: T) | Failure(error: Error)
}
