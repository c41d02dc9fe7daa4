/** The SwiftUI colours the view models choose between; only their identity matters here. */
module Palette {

  datatype Color = Green | Orange | Blue | Purple | Teal | Red | Indigo | Gray | Yellow
}
