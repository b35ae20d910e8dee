// Event channel profiles, as the console prints them and the manager keeps them.
module Profiles {
  datatype Property = Property(name: string, value: string)
}
