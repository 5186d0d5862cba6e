/** Values the scenes receive from the host framework ("basics"). */
module Basics {

  /** A 2D point or size of floats (the framework's Point2f), modelled with reals. */
  datatype Point = Point(x: real, y: real)

  /** The input events the scenes look at, each with the touch location it carries.
      OtherEvent stands for every event id the scenes do not handle. */
  datatype Event =
    | TouchStarted(at: Point)
    | TouchMoved(at: Point)
    | TouchEnded(at: Point)
    | OtherEvent
}
