/** The room archetypes shared by the generator and the balancer. */
module RoomTypes {

  datatype RoomType = Entrance | Normal | Elite | Treasure | Boss
}
